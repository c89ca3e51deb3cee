/** The server's control loop (src/server/server.ts): what it keeps about the
    rooms it runs, and each of its synchronous stretches of code as one step. */
module ServerSpec {
  import opened Prelude
  import opened Store

  const ATTEMPT_RETENTION_MS := 300_000

  datatype Config = Config(runners: set<string>, stallMs: int)

  datatype Life = Starting | Ready | Gone
  datatype Report = Failure | Unregister

  /** The startup promise and its catch: `Rejected` until the catch has run,
      `Failed` once it has taken the process down. */
  datatype Gate = Waiting | Passed | Rejected | Failed

  /** One call of createRoom: the process record, the variables its callbacks
      share, and the reports sent to the driver on its account. */
  datatype Spawn = Spawn(
    id: Id, roomType: string, secret: string, data: string, endpoint: Option<string>,
    ran: bool, gate: Gate, started: bool, exited: bool, life: Life, killed: bool, settled: bool, reports: seq<Report>)

  /** `processes` holds indexes into `spawns`. */
  datatype Local = Local(
    alive: bool,
    processes: map<Id, nat>,
    lastHeartbeats: map<Id, int>,
    killedRoomIds: set<Id>,
    spawning: set<Id>,
    attempted: map<Id, int>,
    lostSince: map<Id, int>,
    previouslyRegistered: bool,
    spawns: seq<Spawn>,
    lost: seq<Id>)

  /** An assigned room, with the secret drawn for it should it be spawned. */
  datatype Assignment = Assignment(id: Id, room: DesiredRoom, secret: string)

  datatype Notify = NotifyHeartbeat | NotifyReady(endpoint: string) | NotifyStopped | NotifyOther

  datatype Reason = ProcessExited | SelfStopped | HeartbeatTimeout

  /** Every process record belongs to the room it is filed under. */
  ghost predicate Wf(l: Local) {
    forall id <- l.processes :: l.processes[id] < |l.spawns| && l.spawns[l.processes[id]].id == id
  }

  const Idle := Local(true, map[], map[], {}, {}, map[], map[], false, [], [])

  function IdsOf(desired: seq<Assignment>): set<Id> {
    set i | 0 <= i < |desired| :: desired[i].id
  }

  predicate IsRunning(l: Local, k: nat)
    requires k < |l.spawns|
  {
    l.spawns[k].id in l.processes && l.processes[l.spawns[k].id] == k
  }

  // --- one room ---

  function NewSpawn(a: Assignment, ran: bool): Spawn {
    Spawn(a.id, a.room.roomType, a.secret, a.room.data, None, ran, if ran then Waiting else Failed,
          false, false, Starting, false, false, [])
  }

  predicate Refused(l: Local, id: Id) {
    !l.alive || id in l.processes || id in l.spawning || id in l.attempted
  }

  function SpawnAssigned(l: Local, cfg: Config, a: Assignment, now: int): Local {
    if Refused(l, a.id) then l
    else
      var ran := a.room.roomType in cfg.runners;
      l.(attempted := l.attempted[a.id := now], spawning := l.spawning + {a.id},
         processes := if ran then l.processes[a.id := |l.spawns|] else l.processes,
         spawns := l.spawns + [NewSpawn(a, ran)])
  }

  function WithReport(s: Spawn, r: Report): Spawn { s.(reports := s.reports + [r]) }

  function Forget(l: Local, id: Id): Local {
    l.(processes := l.processes - {id}, lastHeartbeats := l.lastHeartbeats - {id})
  }

  /** What the driver is told about a room that is gone. */
  function Blame(l: Local, id: Id, reason: Reason): Option<Report> {
    match reason
    case SelfStopped => Some(Unregister)
    case HeartbeatTimeout => Some(Failure)
    case ProcessExited => if id in l.killedRoomIds then None else Some(Failure)
  }

  function Blamed(s: Spawn, r: Option<Report>): Spawn {
    match r
    case None => s
    case Some(report) => WithReport(s, report)
  }

  function Cleanup(l: Local, id: Id, reason: Reason): Local
    requires Wf(l)
  {
    if id !in l.processes then l
    else
      var k := l.processes[id];
      Forget(l, id).(
        killedRoomIds := if reason == ProcessExited then l.killedRoomIds - {id} else l.killedRoomIds,
        spawns := l.spawns[k := Blamed(l.spawns[k], Blame(l, id, reason))])
  }

  /** What a notify message tells about the room's life. */
  function Lifted(s: Spawn, msg: Notify): Spawn {
    if msg.NotifyReady? && s.life == Starting then s.(life := Ready)
    else if msg.NotifyStopped? then s.(life := Gone)
    else s
  }

  /** The first message opens the startup gate and starts the stall clock. */
  function Heard(l: Local, k: nat, msg: Notify, now: int): Local
    requires k < |l.spawns|
  {
    var s := l.spawns[k];
    var s1 := if s.started then s else s.(started := true, gate := if s.gate == Waiting then Passed else s.gate);
    l.(lastHeartbeats := if s.started then l.lastHeartbeats else l.lastHeartbeats[s.id := now],
       spawns := l.spawns[k := Lifted(s1, msg)])
  }

  function OnMessage(l: Local, k: nat, msg: Notify, now: int): Local
    requires Wf(l) && k < |l.spawns|
  {
    var id := l.spawns[k].id;
    if l.spawns[k].exited || id !in l.processes then l
    else
      var l1 := Heard(l, k, msg, now);
      match msg
      case NotifyHeartbeat => l1.(lastHeartbeats := l1.lastHeartbeats[id := now])
      case NotifyReady(endpoint) =>
        var j := l1.processes[id];
        l1.(spawns := l1.spawns[j := l1.spawns[j].(endpoint := Some(endpoint))])
      case NotifyStopped => Cleanup(l1, id, SelfStopped)
      case NotifyOther => l1
  }

  function Exited(s: Spawn): Spawn { s.(exited := true, life := Gone) }

  function OnExit(l: Local, k: nat): Local
    requires Wf(l) && k < |l.spawns|
  {
    var s := l.spawns[k];
    if s.exited then l
    else if !s.started then
      l.(spawns := l.spawns[k := Exited(s).(gate := if s.gate == Waiting then Rejected else s.gate)])
    else
      Cleanup(l.(spawns := l.spawns[k := Exited(s)]), s.id, ProcessExited)
  }

  function OnStartupTimeout(l: Local, k: nat): Local
    requires k < |l.spawns|
  {
    if l.spawns[k].gate == Waiting then l.(spawns := l.spawns[k := l.spawns[k].(gate := Rejected)]) else l
  }

  /** The catch around the startup promise. */
  function StartFailed(l: Local, k: nat): Local
    requires k < |l.spawns|
  {
    Forget(l, l.spawns[k].id).(spawns := l.spawns[k := l.spawns[k].(gate := Failed, killed := true)])
  }

  /** The end of the spawn promise: a failed start is reported. */
  function SpawnSettled(l: Local, k: nat): Local
    requires k < |l.spawns|
  {
    var s := l.spawns[k].(settled := true);
    l.(spawning := l.spawning - {s.id}, spawns := l.spawns[k := if s.gate == Failed then WithReport(s, Failure) else s])
  }

  function Destroy(l: Local, id: Id): Local
    requires Wf(l)
  {
    if id !in l.processes then l
    else
      var k := l.processes[id];
      l.(killedRoomIds := l.killedRoomIds + {id}, spawns := l.spawns[k := l.spawns[k].(killed := true)])
  }

  // --- all rooms ---

  function DestroyAll(l: Local, ids: set<Id>): Local {
    l.(killedRoomIds := l.killedRoomIds + ids * l.processes.Keys,
       spawns := seq(|l.spawns|, k requires 0 <= k < |l.spawns| =>
         if IsRunning(l, k) && l.spawns[k].id in ids then l.spawns[k].(killed := true) else l.spawns[k]))
  }

  predicate IsStalled(l: Local, cfg: Config, id: Id, now: int) {
    id in l.lastHeartbeats && now - l.lastHeartbeats[id] > cfg.stallMs && id in l.processes
  }

  function Stalled(l: Local, cfg: Config, now: int): set<Id> {
    set id | id in l.lastHeartbeats && IsStalled(l, cfg, id, now)
  }

  /** Kills, forgets and reports the rooms of `ids`. */
  function CutOff(l: Local, ids: set<Id>): Local {
    var killed := DestroyAll(l, ids);
    l.(processes := l.processes - ids, lastHeartbeats := l.lastHeartbeats - ids * l.processes.Keys,
       killedRoomIds := killed.killedRoomIds,
       spawns := seq(|l.spawns|, k requires 0 <= k < |l.spawns| =>
         if IsRunning(l, k) && l.spawns[k].id in ids then WithReport(l.spawns[k].(killed := true), Failure)
         else l.spawns[k]))
  }

  function CheckHeartbeats(l: Local, cfg: Config, now: int): Local {
    CutOff(l, Stalled(l, cfg, now))
  }

  predicate SpawnedAfter(l: Local, id: Id, at: int) {
    id in l.attempted && l.attempted[id] >= at
  }

  predicate Unwanted(l: Local, desiredIds: set<Id>, reasserted: set<Id>, requestedAt: int, id: Id) {
    id !in reasserted && !SpawnedAfter(l, id, requestedAt) && id !in desiredIds
  }

  /** The rooms a tick's sweep passes to destroyWorker. */
  function SweepTargets(l: Local, desired: seq<Assignment>, reasserted: set<Id>, requestedAt: int): set<Id> {
    set id | id in l.processes && Unwanted(l, IdsOf(desired), reasserted, requestedAt, id)
  }

  function ReconcileRoom(l: Local, cfg: Config, a: Assignment, now: int): Local {
    if a.id in l.processes || a.id in l.spawning then l.(lostSince := l.lostSince - {a.id})
    else if a.room.status == Requested then SpawnAssigned(l, cfg, a, now)
    else if a.id !in l.lostSince then l.(lostSince := l.lostSince[a.id := now])
    else if now - l.lostSince[a.id] < cfg.stallMs then l
    else l.(lostSince := l.lostSince - {a.id}, lost := l.lost + [a.id])
  }

  function ReconcileRooms(l: Local, cfg: Config, desired: seq<Assignment>, now: int): Local {
    if desired == [] then l
    else ReconcileRoom(ReconcileRooms(l, cfg, desired[..|desired| - 1], now), cfg, desired[|desired| - 1], now)
  }

  predicate Forgotten(l: Local, desired: seq<Assignment>, requestedAt: int, now: int, id: Id)
    requires id in l.attempted
  {
    id !in IdsOf(desired) && !SpawnedAfter(l, id, requestedAt) && now - l.attempted[id] > ATTEMPT_RETENTION_MS
  }

  function ForgetUndesired(l: Local, desired: seq<Assignment>, requestedAt: int, now: int): Local {
    l.(lostSince := map id | id in l.lostSince && id in IdsOf(desired) :: l.lostSince[id],
       attempted := map id | id in l.attempted && !Forgotten(l, desired, requestedAt, now, id) :: l.attempted[id])
  }

  function ReconcileDesired(l: Local, cfg: Config, desired: seq<Assignment>, requestedAt: int, now: int): Local {
    ForgetUndesired(ReconcileRooms(l, cfg, desired, now), desired, requestedAt, now)
  }

  /** The end of a tick: sweep, then reconcile if the tick is still current. */
  function FinishTick(l: Local, cfg: Config, desired: seq<Assignment>, reasserted: set<Id>, requestedAt: int,
                      now: int, current: bool): Local {
    var l0 := l.(previouslyRegistered := true);
    var l1 := DestroyAll(l0, SweepTargets(l0, desired, reasserted, requestedAt));
    if current then ReconcileDesired(l1, cfg, desired, requestedAt, now) else l1
  }

  // --- the whole system: the server, its records in the driver, its ticks ---

  datatype Phase =
    | Asked
    | Answered(desired: seq<Assignment>, registered: bool)
    | Recovering(desired: seq<Assignment>, reasserted: set<Id>, pending: Option<Id>)

  datatype Tick = Tick(requestedAt: int, phase: Phase)

  /** `records` are the driver's rooms of this server; `known` says that the
      server's own record exists; `regs` and `regAt` count and date
      registrations. Several ticks may be under way, at most one of them is
      current. */
  datatype World = World(
    now: int,
    l: Local,
    known: bool,
    records: map<Id, DesiredRoom>,
    regs: map<Id, nat>,
    regAt: map<Id, int>,
    ticks: map<nat, Tick>,
    nextTick: nat,
    current: Option<nat>)

  datatype Event =
    | EvTime(now: int)
    | EvRegister(id: Id, room: DesiredRoom)
    | EvPush(a: Assignment)
    | EvMadeReady(id: Id)
    | EvRemove(ids: set<Id>)
    | EvReap
    | EvMessage(k: nat, msg: Notify)
    | EvExit(k: nat)
    | EvStartupTimeout(k: nat)
    | EvStartFailed(k: nat)
    | EvSpawnSettled(k: nat)
    | EvUnwanted(id: Id)
    | EvTickStart
    | EvTickOver
    | EvAnswer(t: nat, desired: seq<Assignment>)
    | EvAccept(t: nat)
    | EvReassert(t: nat, id: Id)
    | EvReasserted(t: nat)
    | EvReassertFailed(t: nat)
    | EvFinish(t: nat)
    | EvStop
    | EvShutdown

  /** A snapshot lists every record of the server once. */
  ghost predicate Lists(desired: seq<Assignment>, records: map<Id, DesiredRoom>) {
    && IdsOf(desired) == records.Keys
    && (forall i :: 0 <= i < |desired| ==> desired[i].id in records && desired[i].room == records[desired[i].id])
    && (forall i, j :: 0 <= i < j < |desired| ==> desired[i].id != desired[j].id)
  }

  predicate IsCurrent(w: World, t: nat) { w.current == Some(t) }

  /** A ready room with an endpoint that the driver does not list. */
  predicate Recoverable(l: Local, desiredIds: set<Id>, id: Id) {
    && id in l.processes && l.processes[id] < |l.spawns|
    && l.spawns[l.processes[id]].life == Ready && !Missing(l.spawns[l.processes[id]].endpoint)
    && id !in desiredIds
  }

  predicate CanReassert(w: World, t: nat, id: Id)
    requires t in w.ticks && w.ticks[t].phase.Recovering?
  {
    && w.ticks[t].phase.pending == None
    && Recoverable(w.l, IdsOf(w.ticks[t].phase.desired), id)
  }

  /** The clock never goes back. A push is delivered late by less than the
      attempt retention. The catch of a rejected startup runs before another
      message of the room is read. */
  ghost predicate Enabled(w: World, e: Event) {
    match e
    case EvTime(now) => now >= w.now
    case EvRegister(id, room) => w.known && room.status == Requested
    case EvPush(a) =>
      a.id in w.regs && a.id in w.regAt && w.now - w.regAt[a.id] < ATTEMPT_RETENTION_MS && a.room.status == Requested
    case EvMadeReady(id) => id in w.records
    case EvRemove(ids) => true
    case EvReap => true
    case EvMessage(k, msg) => k < |w.l.spawns| && w.l.spawns[k].ran
      && (w.l.spawns[k].gate != Rejected || w.l.spawns[k].exited)
    case EvExit(k) => k < |w.l.spawns| && w.l.spawns[k].ran
    case EvStartupTimeout(k) => k < |w.l.spawns| && w.l.spawns[k].ran
    case EvStartFailed(k) => k < |w.l.spawns| && w.l.spawns[k].gate == Rejected
    case EvSpawnSettled(k) =>
      k < |w.l.spawns| && !w.l.spawns[k].settled && (w.l.spawns[k].gate == Passed || w.l.spawns[k].gate == Failed)
    case EvUnwanted(id) => true
    case EvTickStart => w.current == None && w.l.alive
    case EvTickOver => true
    case EvAnswer(t, desired) => t in w.ticks && w.ticks[t].phase.Asked? && Lists(desired, w.records)
    case EvAccept(t) => t in w.ticks && w.ticks[t].phase.Answered?
    case EvReassert(t, id) => t in w.ticks && w.ticks[t].phase.Recovering? && CanReassert(w, t, id) && w.known
    case EvReasserted(t) => t in w.ticks && w.ticks[t].phase.Recovering? && w.ticks[t].phase.pending.Some?
    case EvReassertFailed(t) => t in w.ticks && w.ticks[t].phase.Recovering?
    case EvFinish(t) => t in w.ticks && w.ticks[t].phase.Recovering? && w.ticks[t].phase.pending == None
    case EvStop => true
    case EvShutdown => !w.l.alive
  }

  function Count(regs: map<Id, nat>, id: Id): nat { if id in regs then regs[id] else 0 }

  function Recorded(w: World, id: Id, room: DesiredRoom): World {
    w.(records := w.records[id := room], regs := w.regs[id := Count(w.regs, id) + 1], regAt := w.regAt[id := w.now])
  }

  function EndTick(w: World, cfg: Config, t: nat, l: Local, desired: seq<Assignment>, reasserted: set<Id>): World
    requires t in w.ticks
  {
    w.(ticks := w.ticks - {t},
       l := FinishTick(l, cfg, desired, reasserted, w.ticks[t].requestedAt, w.now, IsCurrent(w, t)))
  }

  /** The continuation of a tick after the driver's answer. */
  function Accept(w: World, cfg: Config, t: nat): World
    requires t in w.ticks && w.ticks[t].phase.Answered?
  {
    var p := w.ticks[t].phase;
    if !IsCurrent(w, t) then w.(ticks := w.ticks - {t})
    else
      var l1 := CheckHeartbeats(w.l, cfg, w.now);
      if p.registered && w.l.previouslyRegistered then
        w.(l := l1, ticks := w.ticks[t := w.ticks[t].(phase := Recovering(p.desired, {}, None))])
      else EndTick(w, cfg, t, l1, p.desired, {})
  }

  /** The rooms that event e passes to destroyWorker as no longer wanted. */
  function Swept(w: World, cfg: Config, e: Event): set<Id> {
    match e
    case EvAccept(t) =>
      if t in w.ticks && w.ticks[t].phase.Answered? && IsCurrent(w, t)
        && !(w.ticks[t].phase.registered && w.l.previouslyRegistered)
      then SweepTargets(CheckHeartbeats(w.l, cfg, w.now), w.ticks[t].phase.desired, {}, w.ticks[t].requestedAt)
      else {}
    case EvFinish(t) =>
      if t in w.ticks && w.ticks[t].phase.Recovering?
      then SweepTargets(w.l, w.ticks[t].phase.desired, w.ticks[t].phase.reasserted, w.ticks[t].requestedAt)
      else {}
    case _ => {}
  }

  function AsRecord(s: Spawn): DesiredRoom { DesiredRoom(s.roomType, s.data, Requested) }

  /** The steps that touch only what the server keeps about its rooms. */
  predicate AboutRooms(e: Event) {
    || e.EvPush? || e.EvMessage? || e.EvExit? || e.EvStartupTimeout? || e.EvStartFailed? || e.EvSpawnSettled?
    || e.EvUnwanted? || e.EvShutdown?
  }

  function RoomStep(w: World, cfg: Config, e: Event): Local
    requires Wf(w.l) && Enabled(w, e) && AboutRooms(e)
  {
    match e
    case EvPush(a) => SpawnAssigned(w.l, cfg, a, w.now)
    case EvMessage(k, msg) => OnMessage(w.l, k, msg, w.now)
    case EvExit(k) => OnExit(w.l, k)
    case EvStartupTimeout(k) => OnStartupTimeout(w.l, k)
    case EvStartFailed(k) => StartFailed(w.l, k)
    case EvSpawnSettled(k) => SpawnSettled(w.l, k)
    case EvUnwanted(id) => Destroy(w.l, id)
    case EvShutdown => DestroyAll(w.l, w.l.processes.Keys)
  }

  predicate AboutDriver(e: Event) { e.EvRegister? || e.EvMadeReady? || e.EvRemove? || e.EvReap? }

  /** The driver's records change, by anyone's hand: a room is registered, a ready
      call takes effect, records go (destroyed, failed, lapsed), or the whole
      server is reaped. */
  function DriverStep(w: World, e: Event): World
    requires Enabled(w, e) && AboutDriver(e)
  {
    match e
    case EvRegister(id, room) => Recorded(w, id, room)
    case EvMadeReady(id) => w.(records := w.records[id := w.records[id].(status := Running)])
    case EvRemove(ids) => w.(records := w.records - ids)
    case EvReap => w.(records := map[], known := false)
  }

  predicate AboutTick(e: Event) {
    e.EvAnswer? || e.EvAccept? || e.EvReassert? || e.EvReasserted? || e.EvReassertFailed? || e.EvFinish?
  }

  /** A tick is answered, re-asserts rooms, ends. */
  function TickStep(w: World, cfg: Config, e: Event): World
    requires Wf(w.l) && Enabled(w, e) && AboutTick(e)
  {
    var t := e.t;
    var p := w.ticks[t].phase;
    match e
    case EvAnswer(_, desired) =>
      w.(known := true, ticks := w.ticks[t := w.ticks[t].(phase := Answered(desired, !w.known))])
    case EvAccept(_) => Accept(w, cfg, t)
    case EvReassert(_, id) =>
      Recorded(w, id, AsRecord(w.l.spawns[w.l.processes[id]])).(
        ticks := w.ticks[t := w.ticks[t].(phase := p.(pending := Some(id)))])
    case EvReasserted(_) =>
      var id := p.pending.value;
      w.(records := if id in w.records then w.records[id := w.records[id].(status := Running)] else w.records,
         ticks := w.ticks[t := w.ticks[t].(phase := p.(reasserted := p.reasserted + {id}, pending := None))])
    case EvReassertFailed(_) =>
      w.(ticks := w.ticks[t := w.ticks[t].(phase := p.(pending := None))])
    case EvFinish(_) => EndTick(w, cfg, t, w.l, p.desired, p.reasserted)
  }

  function Step(w: World, cfg: Config, e: Event): World
    requires Wf(w.l) && Enabled(w, e)
  {
    if AboutRooms(e) then w.(l := RoomStep(w, cfg, e))
    else if AboutDriver(e) then DriverStep(w, e)
    else if AboutTick(e) then TickStep(w, cfg, e)
    else
      match e
      case EvTime(now) => w.(now := now)
      case EvTickStart =>
        w.(ticks := w.ticks[w.nextTick := Tick(w.now, Asked)], nextTick := w.nextTick + 1, current := Some(w.nextTick))
      case EvTickOver => w.(current := None)
      case EvStop => w.(l := w.l.(alive := false), current := None)
  }
}
