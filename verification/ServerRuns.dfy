/** Whole runs of the server: no wanted room is swept, no room is spawned twice,
    no spawn is reported twice. */
module ServerRuns {
  import opened Prelude
  import opened Store
  import opened ServerSpec
  import opened ServerInvariant

  // --- what one step does to the attempts ---

  function DesiredIds(p: Phase): set<Id> { if p.Asked? then {} else IdsOf(p.desired) }

  /** The rooms a tick starts when it ends, and the attempts it forgets. */
  function FinishStarts(l: Local, cfg: Config, desired: seq<Assignment>, reasserted: set<Id>, requestedAt: int,
                        now: int, current: bool): set<Id> {
    if current then
      var l0 := l.(previouslyRegistered := true);
      AllStarts(DestroyAll(l0, SweepTargets(l0, desired, reasserted, requestedAt)), cfg, desired, now)
    else {}
  }

  function FinishForgets(l: Local, desired: seq<Assignment>, requestedAt: int, now: int, current: bool): set<Id> {
    if current then set id | id in l.attempted && Forgotten(l, desired, requestedAt, now, id) else {}
  }

  /** `starts` were started, `forgotten` attempts were dropped. */
  ghost predicate Moves(l: Local, l': Local, starts: set<Id>, forgotten: set<Id>, now: int) {
    && LocalOk(l')
    && |l.spawns| <= |l'.spawns|
    && (forall k :: 0 <= k < |l.spawns| ==> l'.spawns[k].id == l.spawns[k].id)
    && (forall k :: |l.spawns| <= k < |l'.spawns| ==> l'.spawns[k].id in starts)
    && (forall j, k :: |l.spawns| <= j < k < |l'.spawns| ==> l'.spawns[j].id != l'.spawns[k].id)
    && (forall id <- starts :: id !in l.attempted && Spawned(l', id))
    && l'.attempted.Keys == l.attempted.Keys - forgotten + starts
    && (forall id <- l'.attempted :: l'.attempted[id] == if id in starts then now else l.attempted[id])
    && (forall id <- l'.processes :: id in l.processes || id in starts)
  }

  lemma SameMoves(l: Local, l': Local, now: int)
    requires Same(l, l')
    ensures Moves(l, l', {}, {}, now)
  {
  }

  lemma FinishMoves(l: Local, cfg: Config, desired: seq<Assignment>, reasserted: set<Id>, requestedAt: int, now: int,
                    current: bool)
    requires LocalOk(l) && requestedAt <= now
    ensures Moves(l, FinishTick(l, cfg, desired, reasserted, requestedAt, now, current),
                  FinishStarts(l, cfg, desired, reasserted, requestedAt, now, current),
                  FinishForgets(l, desired, requestedAt, now, current), now)
    ensures FinishStarts(l, cfg, desired, reasserted, requestedAt, now, current) <= IdsOf(desired)
  {
    var l0 := l.(previouslyRegistered := true);
    var targets := SweepTargets(l0, desired, reasserted, requestedAt);
    SpawnedKept(l, l0);
    DestroyAllSame(l0, targets);
    var l1 := DestroyAll(l0, targets);
    if current {
      ReconcileRoomsGrow(l1, cfg, desired, now);
      ForgetMoves(l1, ReconcileRooms(l1, cfg, desired, now), desired, AllStarts(l1, cfg, desired, now), requestedAt,
        now);
      SpawnedKept(l1, FinishTick(l, cfg, desired, reasserted, requestedAt, now, current));
    } else {
      SameMoves(l0, l1, now);
    }
  }

  lemma ForgottenAttempts(l: Local, l1: Local, desired: seq<Assignment>, starts: set<Id>, requestedAt: int, now: int,
                          id: Id)
    requires l1.attempted == (map i | i in l.attempted.Keys + starts :: if i in starts then now else l.attempted[i])
    requires starts !! l.attempted.Keys && requestedAt <= now
    ensures var kept := ForgetUndesired(l1, desired, requestedAt, now).attempted;
      && (id in kept <==>
        (id in l.attempted && id !in FinishForgets(l, desired, requestedAt, now, true)) || id in starts)
      && (id in kept ==> kept[id] == if id in starts then now else l.attempted[id])
  {
  }

  lemma ForgetMoves(l: Local, l1: Local, desired: seq<Assignment>, starts: set<Id>, requestedAt: int, now: int)
    requires Grown(l, l1, starts, now) && requestedAt <= now
    ensures Moves(l, ForgetUndesired(l1, desired, requestedAt, now), starts,
      FinishForgets(l, desired, requestedAt, now, true), now)
  {
    var l' := ForgetUndesired(l1, desired, requestedAt, now);
    SpawnedKept(l1, l');
    forall id ensures
      && (id in l'.attempted <==>
        (id in l.attempted && id !in FinishForgets(l, desired, requestedAt, now, true)) || id in starts)
      && (id in l'.attempted ==> l'.attempted[id] == if id in starts then now else l.attempted[id])
    {
      ForgottenAttempts(l, l1, desired, starts, requestedAt, now, id);
    }
    assert l'.attempted.Keys == l.attempted.Keys - FinishForgets(l, desired, requestedAt, now, true) + starts;
  }

  lemma SameThenMoves(l: Local, l1: Local, l2: Local, starts: set<Id>, forgotten: set<Id>, now: int)
    requires Same(l, l1) && Moves(l1, l2, starts, forgotten, now)
    ensures Moves(l, l2, starts, forgotten, now)
  {
  }

  /** An answered tick that will end at once, without recovering rooms. */
  predicate EndsAtOnce(w: World, t: nat) {
    && t in w.ticks && w.ticks[t].phase.Answered? && IsCurrent(w, t)
    && !(w.ticks[t].phase.registered && w.l.previouslyRegistered)
  }

  predicate Ends(w: World, t: nat) { t in w.ticks && w.ticks[t].phase.Recovering? }

  function StepStarts(w: World, cfg: Config, e: Event): set<Id> {
    match e
    case EvPush(a) => Starts(w.l, a)
    case EvAccept(t) =>
      if EndsAtOnce(w, t) then
        FinishStarts(CheckHeartbeats(w.l, cfg, w.now), cfg, w.ticks[t].phase.desired, {}, w.ticks[t].requestedAt, w.now,
          true)
      else {}
    case EvFinish(t) =>
      if Ends(w, t) then
        FinishStarts(w.l, cfg, w.ticks[t].phase.desired, w.ticks[t].phase.reasserted, w.ticks[t].requestedAt, w.now,
          IsCurrent(w, t))
      else {}
    case _ => {}
  }

  function StepForgets(w: World, cfg: Config, e: Event): set<Id> {
    match e
    case EvAccept(t) =>
      if EndsAtOnce(w, t) then
        FinishForgets(CheckHeartbeats(w.l, cfg, w.now), w.ticks[t].phase.desired, w.ticks[t].requestedAt, w.now, true)
      else {}
    case EvFinish(t) =>
      if Ends(w, t) then FinishForgets(w.l, w.ticks[t].phase.desired, w.ticks[t].requestedAt, w.now, IsCurrent(w, t))
      else {}
    case _ => {}
  }

  lemma AcceptMoves(w: World, cfg: Config, t: nat)
    requires LocalOk(w.l) && t in w.ticks && w.ticks[t].phase.Answered? && w.ticks[t].requestedAt <= w.now
    ensures Moves(w.l, Accept(w, cfg, t).l, StepStarts(w, cfg, EvAccept(t)), StepForgets(w, cfg, EvAccept(t)), w.now)
    ensures StepStarts(w, cfg, EvAccept(t)) <= IdsOf(w.ticks[t].phase.desired)
  {
    CheckHeartbeatsSame(w.l, cfg, w.now);
    var l1 := CheckHeartbeats(w.l, cfg, w.now);
    var w' := Accept(w, cfg, t);
    if EndsAtOnce(w, t) {
      FinishMoves(l1, cfg, w.ticks[t].phase.desired, {}, w.ticks[t].requestedAt, w.now, true);
      SameThenMoves(w.l, l1, w'.l, StepStarts(w, cfg, EvAccept(t)), StepForgets(w, cfg, EvAccept(t)), w.now);
    } else if IsCurrent(w, t) {
      SameMoves(w.l, l1, w.now);
    } else {
      SpawnedKept(w.l, w.l);
      SameMoves(w.l, w.l, w.now);
    }
  }

  lemma PushMoves(l: Local, cfg: Config, a: Assignment, now: int)
    requires LocalOk(l)
    ensures Moves(l, SpawnAssigned(l, cfg, a, now), Starts(l, a), {}, now)
  {
    SpawnAssignedGrows(l, cfg, a, now);
  }

  lemma RoomStepMoves(w: World, cfg: Config, e: Event)
    requires LocalOk(w.l) && Enabled(w, e) && AboutRooms(e)
    ensures Moves(w.l, RoomStep(w, cfg, e), StepStarts(w, cfg, e), {}, w.now)
  {
    var l' := RoomStep(w, cfg, e);
    match e {
      case EvPush(a) => PushMoves(w.l, cfg, a, w.now);
      case EvMessage(k, msg) => OnMessageSame(w.l, k, msg, w.now); SameMoves(w.l, l', w.now);
      case EvExit(k) => OnExitSame(w.l, k); SameMoves(w.l, l', w.now);
      case EvStartupTimeout(k) => OnStartupTimeoutSame(w.l, k); SameMoves(w.l, l', w.now);
      case EvStartFailed(k) => StartFailedSame(w.l, k); SameMoves(w.l, l', w.now);
      case EvSpawnSettled(k) => SpawnSettledSame(w.l, k); SameMoves(w.l, l', w.now);
      case EvUnwanted(id) => DestroySame(w.l, id); SameMoves(w.l, l', w.now);
      case EvShutdown => DestroyAllSame(w.l, w.l.processes.Keys); SameMoves(w.l, l', w.now);
    }
  }

  lemma StepMoves(w: World, cfg: Config, e: Event)
    requires LocalOk(w.l) && Enabled(w, e) && TicksOk(w)
    ensures Moves(w.l, Step(w, cfg, e).l, StepStarts(w, cfg, e), StepForgets(w, cfg, e), w.now)
  {
    if AboutRooms(e) {
      RoomStepMoves(w, cfg, e);
    } else if e.EvAccept? {
      assert TickOk(w, e.t);
      AcceptMoves(w, cfg, e.t);
    } else if e.EvFinish? {
      assert TickOk(w, e.t);
      var tick := w.ticks[e.t];
      FinishMoves(w.l, cfg, tick.phase.desired, tick.phase.reasserted, tick.requestedAt, w.now, IsCurrent(w, e.t));
    } else {
      SpawnedKept(w.l, w.l);
      SpawnedKept(w.l, w.l.(alive := false));
      SameMoves(w.l, Step(w, cfg, e).l, w.now);
    }
  }

  // --- the records, the snapshots and the clock ---

  /** A tick under way asks in the past and lists registered rooms only. */
  predicate TickOk(w: World, t: nat)
    requires t in w.ticks
  {
    t < w.nextTick && w.ticks[t].requestedAt <= w.now && DesiredIds(w.ticks[t].phase) <= w.regs.Keys
  }

  predicate TicksOk(w: World) { forall t <- w.ticks :: TickOk(w, t) }

  predicate RecordsOk(w: World) {
    && w.regs.Keys == w.regAt.Keys && w.records.Keys <= w.regs.Keys
    && (forall id <- w.regAt :: w.regAt[id] <= w.now && w.regs[id] >= 1)
  }

  predicate AttemptsOk(w: World) {
    && (w.current.Some? ==> w.current.value < w.nextTick)
    && (forall id <- w.l.attempted :: w.l.attempted[id] <= w.now)
  }

  ghost predicate Basics(w: World) { LocalOk(w.l) && TicksOk(w) && RecordsOk(w) && AttemptsOk(w) }

  predicate HasAnswer(w: World, t: nat)
    requires t in w.ticks
  {
    !w.ticks[t].phase.Asked?
  }

  /** A tick keeps its request time and its snapshot; a fresh snapshot lists the
      records; a new tick asks now. */
  predicate TickMoves(w: World, w': World, t: nat)
    requires t in w'.ticks
  {
    if t in w.ticks then
      && w'.ticks[t].requestedAt == w.ticks[t].requestedAt
      && (HasAnswer(w, t) ==> HasAnswer(w', t) && DesiredIds(w'.ticks[t].phase) == DesiredIds(w.ticks[t].phase))
      && (!HasAnswer(w, t) && HasAnswer(w', t) ==> DesiredIds(w'.ticks[t].phase) == w.records.Keys)
    else
      !HasAnswer(w', t) && w'.ticks[t].requestedAt == w.now && t < w'.nextTick
  }

  lemma AcceptTicks(w: World, cfg: Config, t0: nat, t: nat)
    requires t0 in w.ticks && w.ticks[t0].phase.Answered? && t in Accept(w, cfg, t0).ticks
    ensures TickMoves(w, Accept(w, cfg, t0), t)
  {
  }

  lemma TickStepTicks(w: World, cfg: Config, e: Event, t: nat)
    requires Wf(w.l) && Enabled(w, e) && AboutTick(e) && t in TickStep(w, cfg, e).ticks
    ensures TickMoves(w, TickStep(w, cfg, e), t)
  {
    if e.EvAccept? { AcceptTicks(w, cfg, e.t, t); }
  }

  /** Steps that are not about a tick: at most a new tick asks. */
  lemma OtherTicks(w: World, cfg: Config, e: Event)
    requires Wf(w.l) && Enabled(w, e) && !AboutTick(e)
    ensures var w' := Step(w, cfg, e);
      w'.ticks == (if e.EvTickStart? then w.ticks[w.nextTick := Tick(w.now, Asked)] else w.ticks)
        && w'.nextTick >= w.nextTick
    ensures e.EvTickStart? ==> Step(w, cfg, e).nextTick == w.nextTick + 1
  {
  }

  lemma StepTicks(w: World, cfg: Config, e: Event, w': World, t: nat)
    requires Wf(w.l) && TicksOk(w) && Enabled(w, e) && w' == Step(w, cfg, e) && t in w'.ticks
    ensures TickMoves(w, w', t)
  {
    if t in w.ticks { assert TickOk(w, t); }
    if AboutTick(e) { TickStepTicks(w, cfg, e, t); } else { OtherTicks(w, cfg, e); }
  }

  lemma TickStaysOk(w: World, w': World, t: nat)
    requires TicksOk(w) && RecordsOk(w) && t in w'.ticks && TickMoves(w, w', t)
    requires w.now <= w'.now && w.nextTick <= w'.nextTick && w.regs.Keys <= w'.regs.Keys
    ensures TickOk(w', t)
  {
    if t in w.ticks { assert TickOk(w, t); }
  }

  /** Registrations are only ever added, the clock and the tick count only grow. */
  predicate RecordsGrow(w: World, w': World) {
    RecordsOk(w') && w.now <= w'.now && w.nextTick <= w'.nextTick && w.regs.Keys <= w'.regs.Keys
  }

  lemma TickStepRecordsOk(w: World, cfg: Config, e: Event)
    requires Wf(w.l) && RecordsOk(w) && Enabled(w, e) && AboutTick(e)
    ensures RecordsGrow(w, TickStep(w, cfg, e))
  {
  }

  lemma RecordsStayOk(w: World, cfg: Config, e: Event)
    requires Wf(w.l) && RecordsOk(w) && Enabled(w, e)
    ensures RecordsGrow(w, Step(w, cfg, e))
  {
    if AboutTick(e) { TickStepRecordsOk(w, cfg, e); }
  }

  lemma AttemptsStayOk(w: World, w': World, cfg: Config, e: Event, starts: set<Id>, forgotten: set<Id>)
    requires AttemptsOk(w) && Wf(w.l) && Enabled(w, e) && w' == Step(w, cfg, e)
    requires Moves(w.l, w'.l, starts, forgotten, w.now) && w.now <= w'.now
    ensures AttemptsOk(w')
  {
  }

  lemma BasicsKept(w: World, cfg: Config, e: Event)
    requires Basics(w) && Enabled(w, e)
    ensures Basics(Step(w, cfg, e))
  {
    var w' := Step(w, cfg, e);
    StepMoves(w, cfg, e);
    RecordsStayOk(w, cfg, e);
    AttemptsStayOk(w, w', cfg, e, StepStarts(w, cfg, e), StepForgets(w, cfg, e));
    forall t <- w'.ticks ensures TickOk(w', t) {
      StepTicks(w, cfg, e, w', t);
      TickStaysOk(w, w', t);
    }
  }

  // --- no wanted room is swept ---

  /** Tick t will not sweep the room. */
  predicate Spares(w: World, t: nat, id: Id)
    requires t in w.ticks
  {
    HasAnswer(w, t) ==> id in DesiredIds(w.ticks[t].phase) || SpawnedAfter(w.l, id, w.ticks[t].requestedAt)
  }

  /** The room has its record, and no tick under way will sweep its process. */
  predicate Wanted(w: World, id: Id) {
    id in w.records && (id in w.l.processes ==> forall t <- w.ticks :: Spares(w, t, id))
  }

  lemma TickSpares(w: World, w': World, starts: set<Id>, forgotten: set<Id>, id: Id, t: nat)
    requires t in w'.ticks && TickMoves(w, w', t) && TicksOk(w)
    requires Moves(w.l, w'.l, starts, forgotten, w.now) && id in w'.l.processes
    requires id in w.l.processes ==> id !in forgotten
    requires id in w.records && (id in w.l.processes ==> Wanted(w, id))
    ensures Spares(w', t, id)
  {
    if t in w.ticks {
      assert TickOk(w, t);
      if id !in starts { assert id in w.l.processes && Spares(w, t, id); }
    }
  }

  lemma SparedNotForgotten(l: Local, desired: seq<Assignment>, requestedAt: int, now: int, current: bool, id: Id)
    requires id in IdsOf(desired) || SpawnedAfter(l, id, requestedAt)
    ensures id !in FinishForgets(l, desired, requestedAt, now, current)
  {
  }

  lemma NotForgottenAtOnce(w: World, cfg: Config, t: nat, id: Id)
    requires LocalOk(w.l) && id in w.l.processes && Wanted(w, id) && EndsAtOnce(w, t)
    ensures id !in StepForgets(w, cfg, EvAccept(t))
  {
    CheckHeartbeatsSame(w.l, cfg, w.now);
    assert Spares(w, t, id);
    SparedNotForgotten(CheckHeartbeats(w.l, cfg, w.now), w.ticks[t].phase.desired, w.ticks[t].requestedAt, w.now, true,
      id);
  }

  lemma NotForgotten(w: World, cfg: Config, e: Event, id: Id)
    requires LocalOk(w.l) && id in w.l.processes && Wanted(w, id)
    ensures id !in StepForgets(w, cfg, e)
  {
    if e.EvAccept? {
      if EndsAtOnce(w, e.t) { NotForgottenAtOnce(w, cfg, e.t, id); }
    } else if e.EvFinish? && Ends(w, e.t) {
      assert Spares(w, e.t, id);
      SparedNotForgotten(w.l, w.ticks[e.t].phase.desired, w.ticks[e.t].requestedAt, w.now, IsCurrent(w, e.t), id);
    }
  }

  /** A room that is wanted stays so for as long as its record stays. */
  lemma WantedKept(w: World, cfg: Config, e: Event, w': World, id: Id)
    requires Basics(w) && Enabled(w, e) && w' == Step(w, cfg, e)
    requires id in w.records && id in w'.records
    requires id in w.l.processes ==> Wanted(w, id)
    ensures Wanted(w', id)
  {
    StepMoves(w, cfg, e);
    if id in w'.l.processes {
      if id in w.l.processes { NotForgotten(w, cfg, e, id); }
      forall t <- w'.ticks ensures Spares(w', t, id) {
        StepTicks(w, cfg, e, w', t);
        TickSpares(w, w', StepStarts(w, cfg, e), StepForgets(w, cfg, e), id, t);
      }
    }
  }

  lemma WantedNotSwept(w: World, cfg: Config, e: Event, id: Id)
    requires Basics(w) && Enabled(w, e) && Wanted(w, id)
    ensures id !in Swept(w, cfg, e)
  {
    CheckHeartbeatsSame(w.l, cfg, w.now);
    match e {
      case EvAccept(t) => if t in w.ticks && id in w.l.processes { assert Spares(w, t, id); }
      case EvFinish(t) => if t in w.ticks && id in w.l.processes { assert Spares(w, t, id); }
      case _ =>
    }
  }

  // --- runs ---

  function Start(now: int): World {
    World(now, Idle, false, map[], map[], map[], map[], 0, None)
  }

  /** Each step is one that can happen and leads to the next state. (Every state
      of a run is well formed: RunBasics.) */
  ghost predicate Follows(w: World, cfg: Config, e: Event, w': World) {
    Enabled(w, e) && (Wf(w.l) ==> w' == Step(w, cfg, e))
  }

  ghost predicate StepAt(cfg: Config, ws: seq<World>, es: seq<Event>, i: nat)
    requires |ws| == |es| + 1 && i < |es|
  {
    Follows(ws[i], cfg, es[i], ws[i + 1])
  }

  ghost predicate IsRun(cfg: Config, ws: seq<World>, es: seq<Event>) {
    && |ws| == |es| + 1 && ws[0] == Start(ws[0].now)
    && forall i: nat {:trigger StepAt(cfg, ws, es, i)} :: i < |es| ==> StepAt(cfg, ws, es, i)
  }

  lemma {:induction false} RunBasics(cfg: Config, ws: seq<World>, es: seq<Event>, n: nat)
    requires IsRun(cfg, ws, es) && n < |ws|
    ensures Basics(ws[n])
  {
    if n > 0 {
      RunBasics(cfg, ws, es, n - 1);
      assert StepAt(cfg, ws, es, n - 1);
      BasicsKept(ws[n - 1], cfg, es[n - 1]);
    }
  }

  lemma {:induction false} StaysWanted(cfg: Config, ws: seq<World>, es: seq<Event>, i: nat, j: nat, id: Id)
    requires IsRun(cfg, ws, es) && i < j < |ws|
    requires id !in ws[i].l.processes
    requires forall m :: i <= m <= j ==> id in ws[m].records
    ensures Wanted(ws[j], id)
    decreases j
  {
    var w := ws[j - 1];
    RunBasics(cfg, ws, es, j - 1);
    if j > i + 1 { StaysWanted(cfg, ws, es, i, j - 1, id); }
    assert StepAt(cfg, ws, es, j - 1) && id in w.records;
    assert id in w.l.processes ==> Wanted(w, id);
    WantedKept(w, cfg, es[j - 1], ws[j], id);
  }

  /** In any run, with any overlap of ticks: if a room's record is in the driver
      from before the room was spawned on, no sweep destroys the room. */
  lemma NoWantedRoomSwept(cfg: Config, ws: seq<World>, es: seq<Event>, i: nat, j: nat, id: Id)
    requires IsRun(cfg, ws, es) && i < j < |es|
    requires id !in ws[i].l.processes && id in ws[i + 1].l.processes
    requires forall m :: i <= m <= j ==> id in ws[m].records
    ensures id !in Swept(ws[j], cfg, es[j])
  {
    StaysWanted(cfg, ws, es, i, j, id);
    RunBasics(cfg, ws, es, j);
    assert StepAt(cfg, ws, es, j);
    WantedNotSwept(ws[j], cfg, es[j], id);
  }

  // --- re-asserted rooms ---

  /** Tick t is over or has re-asserted the room. */
  predicate HasReasserted(w: World, t: nat, id: Id) {
    t < w.nextTick && (t in w.ticks ==> w.ticks[t].phase.Recovering? && id in w.ticks[t].phase.reasserted)
  }

  /** A tick's own steps: other ticks stay as they are, and the rooms it has
      re-asserted are never taken off its list. */
  lemma TickStepReasserted(w: World, cfg: Config, e: Event, w': World, t: nat, id: Id)
    requires Wf(w.l) && Enabled(w, e) && AboutTick(e) && w' == TickStep(w, cfg, e) && HasReasserted(w, t, id)
    ensures HasReasserted(w', t, id)
  {
    if e.t != t {
      assert t in w'.ticks ==> t in w.ticks && w'.ticks[t] == w.ticks[t];
    } else if !e.EvFinish? {
      assert w'.ticks[t].phase.reasserted >= w.ticks[t].phase.reasserted;
    }
  }

  lemma {:induction false} StaysReasserted(cfg: Config, ws: seq<World>, es: seq<Event>, i: nat, j: nat, t: nat, id: Id)
    requires IsRun(cfg, ws, es) && i <= j < |ws| && HasReasserted(ws[i], t, id)
    ensures HasReasserted(ws[j], t, id)
    decreases j
  {
    if i < j {
      StaysReasserted(cfg, ws, es, i, j - 1, t, id);
      RunBasics(cfg, ws, es, j - 1);
      assert StepAt(cfg, ws, es, j - 1);
      if AboutTick(es[j - 1]) { TickStepReasserted(ws[j - 1], cfg, es[j - 1], ws[j], t, id); }
      else { OtherTicks(ws[j - 1], cfg, es[j - 1]); }
    }
  }

  lemma ReassertedStep(w: World, cfg: Config, t: nat, w': World)
    requires Wf(w.l) && Enabled(w, EvReasserted(t)) && w' == TickStep(w, cfg, EvReasserted(t)) && t < w.nextTick
    ensures HasReasserted(w', t, w.ticks[t].phase.pending.value)
  {
  }

  /** In any run, whatever falls between its driver calls: a tick never sweeps a
      room that it has re-asserted. */
  lemma ReassertedNotSwept(cfg: Config, ws: seq<World>, es: seq<Event>, i: nat, j: nat, t: nat, id: Id)
    requires IsRun(cfg, ws, es) && i < j < |es| && es[i] == EvReasserted(t) && es[j] == EvFinish(t)
    requires t in ws[i].ticks && ws[i].ticks[t].phase.Recovering? && ws[i].ticks[t].phase.pending == Some(id)
    ensures id !in Swept(ws[j], cfg, es[j])
  {
    RunBasics(cfg, ws, es, i);
    assert StepAt(cfg, ws, es, i) && TickOk(ws[i], t);
    ReassertedStep(ws[i], cfg, t, ws[i + 1]);
    StaysReasserted(cfg, ws, es, i + 1, j, t, id);
  }

  /** Tick t has no snapshot, or one that lists the room. */
  predicate ListsOnceAnswered(w: World, t: nat, id: Id) {
    t in w.ticks && HasAnswer(w, t) ==> id in DesiredIds(w.ticks[t].phase)
  }

  lemma {:induction false} StaysListed(cfg: Config, ws: seq<World>, es: seq<Event>, i: nat, j: nat, t: nat, id: Id)
    requires IsRun(cfg, ws, es) && i <= j < |ws| && ListsOnceAnswered(ws[i], t, id)
    requires forall m :: i <= m <= j ==> id in ws[m].records
    ensures ListsOnceAnswered(ws[j], t, id)
    decreases j
  {
    if i < j {
      StaysListed(cfg, ws, es, i, j - 1, t, id);
      RunBasics(cfg, ws, es, j - 1);
      assert StepAt(cfg, ws, es, j - 1);
      if t in ws[j].ticks { StepTicks(ws[j - 1], cfg, es[j - 1], ws[j], t); }
    }
  }

  /** Nor does any tick that is answered while the room's record is there: a
      room re-asserted by one tick is safe from every tick answered afterwards. */
  lemma RecordedNotSwept(cfg: Config, ws: seq<World>, es: seq<Event>, i: nat, j: nat, t: nat, id: Id)
    requires IsRun(cfg, ws, es) && i < j < |es| && (es[j] == EvAccept(t) || es[j] == EvFinish(t))
    requires t in ws[i].ticks ==> ws[i].ticks[t].phase.Asked?
    requires forall m :: i <= m <= j ==> id in ws[m].records
    ensures id !in Swept(ws[j], cfg, es[j])
  {
    StaysListed(cfg, ws, es, i, j, t, id);
  }

  /** The event writes a new record of the room. */
  predicate Writes(e: Event, id: Id) { (e.EvRegister? || e.EvReassert?) && e.id == id }

  /** The record goes on: at most it becomes running. */
  predicate RecordFollows(w: World, w': World, id: Id) {
    id in w.records && id in w'.records
    && (w'.records[id] == w.records[id] || w'.records[id] == w.records[id].(status := Running))
  }

  lemma TickStepFollows(w: World, cfg: Config, e: Event, w': World, id: Id)
    requires Wf(w.l) && Enabled(w, e) && AboutTick(e) && w' == TickStep(w, cfg, e) && !Writes(e, id)
    requires id in w.records && id in w'.records
    ensures RecordFollows(w, w', id)
  {
    if e.EvAccept? { assert Accept(w, cfg, e.t).records == w.records; }
  }

  lemma StepFollows(w: World, cfg: Config, e: Event, w': World, id: Id)
    requires Wf(w.l) && Enabled(w, e) && w' == Step(w, cfg, e) && !Writes(e, id) && id in w.records && id in w'.records
    ensures RecordFollows(w, w', id)
  {
    if AboutTick(e) { TickStepFollows(w, cfg, e, w', id); }
    else if AboutDriver(e) { assert w' == DriverStep(w, e); }
    else { OtherSteps(w, cfg, e, w'); }
  }

  /** Between the two indexes the room has a record, and nobody writes a new one. */
  ghost predicate Kept(ws: seq<World>, es: seq<Event>, i: nat, n: nat, id: Id)
    requires i <= n < |ws| == |es| + 1
  {
    (forall m :: i <= m <= n ==> id in ws[m].records) && (forall m :: i <= m < n ==> !Writes(es[m], id))
  }

  lemma {:induction false} RecordRuns(cfg: Config, ws: seq<World>, es: seq<Event>, i: nat, n: nat, id: Id)
    requires IsRun(cfg, ws, es) && i <= n < |ws| && Kept(ws, es, i, n, id)
    ensures RecordFollows(ws[i], ws[n], id)
    decreases n
  {
    if i < n {
      assert Kept(ws, es, i, n - 1, id);
      RecordRuns(cfg, ws, es, i, n - 1, id);
      RunBasics(cfg, ws, es, n - 1);
      assert StepAt(cfg, ws, es, n - 1);
      StepFollows(ws[n - 1], cfg, es[n - 1], ws[n], id);
    }
  }

  lemma ReassertWrites(w: World, cfg: Config, t: nat, id: Id, w': World)
    requires Wf(w.l) && Enabled(w, EvReassert(t, id)) && w' == TickStep(w, cfg, EvReassert(t, id))
    ensures id in w.l.processes && id in w'.records && w'.records[id] == AsRecord(w.l.spawns[w.l.processes[id]])
  {
  }

  lemma ReassertedIsReady(w: World, cfg: Config, t: nat, id: Id, w': World)
    requires Wf(w.l) && Enabled(w, EvReasserted(t)) && w.ticks[t].phase.pending == Some(id) && id in w.records
    requires w' == TickStep(w, cfg, EvReasserted(t))
    ensures id in w'.records && w'.records[id] == w.records[id].(status := Running)
  {
  }

  /** At index i of the run the event writes the record of a room that has a process. */
  ghost predicate WrittenAt(ws: seq<World>, i: nat, id: Id) requires i + 1 < |ws| {
    && id in ws[i].l.processes && ws[i].l.processes[id] < |ws[i].l.spawns| && id in ws[i + 1].records
    && ws[i + 1].records[id] == AsRecord(ws[i].l.spawns[ws[i].l.processes[id]])
  }

  lemma ReassertAt(cfg: Config, ws: seq<World>, es: seq<Event>, i: nat, t: nat, id: Id)
    requires IsRun(cfg, ws, es) && i < |es| && es[i] == EvReassert(t, id)
    ensures WrittenAt(ws, i, id)
  {
    RunBasics(cfg, ws, es, i);
    assert StepAt(cfg, ws, es, i);
    ReassertWrites(ws[i], cfg, t, id, ws[i + 1]);
  }

  /** At index j of the run the room's record becomes running. */
  ghost predicate ReadyAt(ws: seq<World>, j: nat, id: Id) requires j + 1 < |ws| {
    && id in ws[j].records && id in ws[j + 1].records
    && ws[j + 1].records[id] == ws[j].records[id].(status := Running)
  }

  lemma ReassertedAt(cfg: Config, ws: seq<World>, es: seq<Event>, j: nat, t: nat, id: Id)
    requires IsRun(cfg, ws, es) && j < |es| && es[j] == EvReasserted(t) && id in ws[j].records
    requires t in ws[j].ticks && ws[j].ticks[t].phase.Recovering? && ws[j].ticks[t].phase.pending == Some(id)
    ensures ReadyAt(ws, j, id)
  {
    RunBasics(cfg, ws, es, j);
    assert StepAt(cfg, ws, es, j);
    ReassertedIsReady(ws[j], cfg, t, id, ws[j + 1]);
  }

  /** In any run, whatever falls between: a room that a tick re-asserts is running
      in the driver again, with the type and data of its process, from the end of
      its ready call on, for as long as nobody takes the record away or registers
      the room anew. */
  lemma ReassertedRuns(cfg: Config, ws: seq<World>, es: seq<Event>, i: nat, j: nat, n: nat, t: nat, id: Id)
    requires IsRun(cfg, ws, es) && i < j < n < |ws| && es[i] == EvReassert(t, id) && es[j] == EvReasserted(t)
    requires t in ws[j].ticks && ws[j].ticks[t].phase.Recovering? && ws[j].ticks[t].phase.pending == Some(id)
    requires Kept(ws, es, i + 1, n, id)
    ensures id in ws[i].l.processes && ws[i].l.processes[id] < |ws[i].l.spawns| && id in ws[n].records
    ensures ws[n].records[id] == AsRecord(ws[i].l.spawns[ws[i].l.processes[id]]).(status := Running)
  {
    ReassertAt(cfg, ws, es, i, t, id);
    RecordRuns(cfg, ws, es, i + 1, j, id);
    ReassertedAt(cfg, ws, es, j, t, id);
    RecordRuns(cfg, ws, es, j + 1, n, id);
  }

  // --- no room is spawned twice ---

  /** What a step does to the registrations of a room registered at most once. */
  predicate RecordMoves(w: World, w': World, id: Id) {
    && (id in w.regAt ==> id in w'.regAt && w'.regAt[id] == w.regAt[id])
    && (id in w'.regAt && id !in w.regAt ==> w'.regAt[id] == w.now)
    && (id in w'.records && id in w.regAt ==> id in w.records)
    && (w'.current.Some? ==> w'.current == w.current || w'.current.value == w.nextTick)
  }

  lemma TickStepRecords(w: World, cfg: Config, e: Event, id: Id)
    requires Wf(w.l) && RecordsOk(w) && Enabled(w, e) && AboutTick(e) && Count(TickStep(w, cfg, e).regs, id) <= 1
    ensures RecordMoves(w, TickStep(w, cfg, e), id)
  {
  }

  lemma DriverStepRecords(w: World, e: Event, w': World, id: Id)
    requires RecordsOk(w) && Enabled(w, e) && AboutDriver(e) && w' == DriverStep(w, e) && Count(w'.regs, id) <= 1
    ensures RecordMoves(w, w', id)
  {
    assert e.EvRegister? && e.id == id ==> id !in w.regs;
  }

  lemma StepRecords(w: World, cfg: Config, e: Event, w': World, id: Id)
    requires Wf(w.l) && RecordsOk(w) && Enabled(w, e) && w' == Step(w, cfg, e) && Count(w'.regs, id) <= 1
    ensures RecordMoves(w, w', id)
  {
    if AboutTick(e) { TickStepRecords(w, cfg, e, id); }
    else if AboutDriver(e) { DriverStepRecords(w, e, w', id); }
    else { OtherSteps(w, cfg, e, w'); }
  }

  lemma OtherSteps(w: World, cfg: Config, e: Event, w': World)
    requires Wf(w.l) && Enabled(w, e) && !AboutTick(e) && !AboutDriver(e) && w' == Step(w, cfg, e)
    ensures w'.regAt == w.regAt && w'.records == w.records
    ensures w'.current.Some? ==> w'.current == w.current || w'.current.value == w.nextTick
  {
  }

  /** The current tick has a snapshot, and it lists the room. */
  predicate CurrentLists(w: World, id: Id) {
    w.current.Some? && w.current.value in w.ticks && id in DesiredIds(w.ticks[w.current.value].phase)
  }

  lemma StartReason(w: World, cfg: Config, e: Event, id: Id)
    requires Basics(w) && Enabled(w, e) && id in StepStarts(w, cfg, e)
    ensures id in w.regAt && (w.now - w.regAt[id] < ATTEMPT_RETENTION_MS || CurrentLists(w, id))
  {
    match e {
      case EvPush(a) =>
      case EvAccept(t) =>
        assert TickOk(w, t);
        AcceptMoves(w, cfg, t);
      case EvFinish(t) =>
        assert TickOk(w, t);
        FinishMoves(w.l, cfg, w.ticks[t].phase.desired, w.ticks[t].phase.reasserted, w.ticks[t].requestedAt, w.now,
          IsCurrent(w, t));
      case _ =>
    }
  }

  lemma ForgetReason(w: World, cfg: Config, e: Event, id: Id)
    requires Basics(w) && Enabled(w, e) && id in StepForgets(w, cfg, e)
    ensures id in w.l.attempted && w.now - w.l.attempted[id] > ATTEMPT_RETENTION_MS && !CurrentLists(w, id)
    ensures w.current.Some? && w.current.value in w.ticks && HasAnswer(w, w.current.value)
    ensures w.l.attempted[id] < w.ticks[w.current.value].requestedAt
  {
    CheckHeartbeatsSame(w.l, cfg, w.now);
  }

  /** A snapshot taken after the room was registered and not listing it means
      that its record is gone for good. */
  predicate SnapshotOk(w: World, t: nat, id: Id)
    requires t in w.ticks
  {
    HasAnswer(w, t) && id in w.regAt && w.regAt[id] < w.ticks[t].requestedAt && id !in DesiredIds(w.ticks[t].phase) ==>
      id !in w.records
  }

  lemma SnapshotStaysOk(w: World, w': World, t: nat, id: Id)
    requires t in w'.ticks && TickMoves(w, w', t) && RecordMoves(w, w', id)
    requires t in w.ticks ==> SnapshotOk(w, t, id) && w.ticks[t].requestedAt <= w.now
    requires RecordsOk(w)
    ensures SnapshotOk(w', t, id)
  {
  }

  /** Nothing can start the room again. */
  predicate Over(w: World, id: Id) {
    id in w.regAt && id !in w.records && w.now - w.regAt[id] > ATTEMPT_RETENTION_MS && !CurrentLists(w, id)
  }

  lemma StaysOver(w: World, w': World, id: Id)
    requires Over(w, id) && RecordMoves(w, w', id) && TicksOk(w) && w.now <= w'.now
    requires w'.current.Some? && w'.current.value in w'.ticks ==> TickMoves(w, w', w'.current.value)
    ensures Over(w', id)
  {
    if w'.current.Some? && w'.current.value in w.ticks { assert TickOk(w, w'.current.value); }
  }

  /** The history of a room that was registered at most once. */
  ghost predicate Once(w: World, id: Id) {
    && AtMostOne(w.l, id)
    && (Spawned(w.l, id) ==> id in w.regAt && (id !in w.l.attempted ==> Over(w, id)))
    && (id in w.l.attempted ==> Spawned(w.l, id) && id in w.regAt && w.regAt[id] <= w.l.attempted[id])
    && (forall t <- w.ticks :: SnapshotOk(w, t, id))
  }

  lemma NotStartedAgain(w: World, cfg: Config, e: Event, id: Id)
    requires Basics(w) && Once(w, id) && Enabled(w, e)
    requires Moves(w.l, Step(w, cfg, e).l, StepStarts(w, cfg, e), StepForgets(w, cfg, e), w.now)
    requires Spawned(w.l, id)
    ensures id !in StepStarts(w, cfg, e)
  {
    if id in StepStarts(w, cfg, e) {
      StartReason(w, cfg, e, id);
      assert false;
    }
  }

  lemma StillAtMostOne(l: Local, l': Local, starts: set<Id>, forgotten: set<Id>, now: int, id: Id)
    requires Moves(l, l', starts, forgotten, now) && AtMostOne(l, id)
    requires Spawned(l, id) ==> id !in starts
    ensures AtMostOne(l', id)
    ensures Spawned(l', id) ==> Spawned(l, id) || id in starts
  {
    forall j, k | 0 <= j < k < |l'.spawns| ensures l'.spawns[j].id != id || l'.spawns[k].id != id {
      if k < |l.spawns| {
        assert l'.spawns[j].id == l.spawns[j].id && l'.spawns[k].id == l.spawns[k].id;
      } else if j < |l.spawns| {
        assert l'.spawns[j].id == l.spawns[j].id;
        assert l'.spawns[k].id in starts;
        assert l.spawns[j].id == id ==> Spawned(l, id);
      } else {
        assert l'.spawns[j].id != l'.spawns[k].id;
      }
    }
    if Spawned(l', id) {
      var k :| 0 <= k < |l'.spawns| && l'.spawns[k].id == id;
      if k < |l.spawns| { assert l.spawns[k].id == id; }
    }
  }

  /** Forgetting the attempt means that the room is over. */
  lemma ForgottenIsOver(w: World, cfg: Config, e: Event, id: Id)
    requires Basics(w) && Once(w, id) && Enabled(w, e) && id in StepForgets(w, cfg, e)
    ensures Over(w, id)
  {
    ForgetReason(w, cfg, e, id);
    assert SnapshotOk(w, w.current.value, id);
  }

  lemma SpawnedStays(l: Local, l': Local, starts: set<Id>, forgotten: set<Id>, now: int, id: Id)
    requires Moves(l, l', starts, forgotten, now) && Spawned(l, id)
    ensures Spawned(l', id)
  {
    SpawnedKept(l, l');
  }

  lemma OnceKept(w: World, cfg: Config, e: Event, w': World, id: Id)
    requires Basics(w) && Once(w, id) && Enabled(w, e) && w' == Step(w, cfg, e) && Count(w'.regs, id) <= 1
    ensures Once(w', id)
  {
    var starts, forgotten := StepStarts(w, cfg, e), StepForgets(w, cfg, e);
    StepMoves(w, cfg, e);
    StepRecords(w, cfg, e, w', id);
    RecordsStayOk(w, cfg, e);
    if Spawned(w.l, id) {
      NotStartedAgain(w, cfg, e, id);
      SpawnedStays(w.l, w'.l, starts, forgotten, w.now, id);
    }
    StillAtMostOne(w.l, w'.l, starts, forgotten, w.now, id);
    if id in starts { StartReason(w, cfg, e, id); }
    if id in forgotten { ForgottenIsOver(w, cfg, e, id); }
    forall t <- w'.ticks ensures TickMoves(w, w', t) && SnapshotOk(w', t, id) {
      StepTicks(w, cfg, e, w', t);
      if t in w.ticks { assert TickOk(w, t) && SnapshotOk(w, t, id); }
      SnapshotStaysOk(w, w', t, id);
    }
    if Over(w, id) { StaysOver(w, w', id); }
  }

  lemma CountGrows(w: World, cfg: Config, e: Event, id: Id)
    requires Wf(w.l) && Enabled(w, e)
    ensures Count(w.regs, id) <= Count(Step(w, cfg, e).regs, id)
  {
  }

  lemma {:induction false} RunOnce(cfg: Config, ws: seq<World>, es: seq<Event>, n: nat, id: Id)
    requires IsRun(cfg, ws, es) && n < |ws| && Count(ws[n].regs, id) <= 1
    ensures Once(ws[n], id)
    decreases n
  {
    if n > 0 {
      RunBasics(cfg, ws, es, n - 1);
      assert StepAt(cfg, ws, es, n - 1);
      CountGrows(ws[n - 1], cfg, es[n - 1], id);
      RunOnce(cfg, ws, es, n - 1, id);
      OnceKept(ws[n - 1], cfg, es[n - 1], ws[n], id);
    }
  }

  /** In any run, a room that was registered at most once is attempted at most
      once: pushes and reconciles together, however late its failure reports
      reach the driver and however the attempts are pruned. */
  lemma AtMostOnceSpawn(cfg: Config, ws: seq<World>, es: seq<Event>, n: nat, j: nat, k: nat)
    requires IsRun(cfg, ws, es) && n < |ws| && j < |ws[n].l.spawns| && k < |ws[n].l.spawns|
    requires ws[n].l.spawns[j].id == ws[n].l.spawns[k].id && Count(ws[n].regs, ws[n].l.spawns[j].id) <= 1
    ensures j == k
  {
    RunOnce(cfg, ws, es, n, ws[n].l.spawns[j].id);
  }

  // --- no spawn is reported twice ---

  lemma OnlyOne(l: Local, k: nat)
    requires k < |l.spawns| && AtMostOne(l, l.spawns[k].id)
    ensures Only(l, k)
  {
  }

  lemma PushGood(l: Local, cfg: Config, a: Assignment, now: int, k: nat)
    requires LocalOk(l) && k < |SpawnAssigned(l, cfg, a, now).spawns| && Only(SpawnAssigned(l, cfg, a, now), k)
    requires k < |l.spawns| ==> Good(l, k)
    ensures Good(SpawnAssigned(l, cfg, a, now), k)
  {
    GrownGood(l, SpawnAssigned(l, cfg, a, now), cfg, a, now, k);
  }

  lemma GoodByFields(l: Local, l': Local, k: nat)
    requires k < |l.spawns| && Good(l, k)
    requires l'.spawns == l.spawns && l'.processes == l.processes
    requires l'.lastHeartbeats == l.lastHeartbeats && l'.killedRoomIds == l.killedRoomIds
    ensures Good(l', k)
  {
  }

  predicate MaySpawn(l: Local, a: Assignment) {
    a.id !in l.processes && a.id !in l.spawning && a.room.status == Requested
  }

  lemma OnlyNoted(l: Local, cfg: Config, a: Assignment, now: int)
    ensures var l' := ReconcileRoom(l, cfg, a, now);
      if MaySpawn(l, a) then l' == SpawnAssigned(l, cfg, a, now)
      else
        && l'.spawns == l.spawns && l'.processes == l.processes
        && l'.lastHeartbeats == l.lastHeartbeats && l'.killedRoomIds == l.killedRoomIds
  {
  }

  lemma ReconcileRoomGood(l: Local, cfg: Config, a: Assignment, now: int, l': Local, k: nat)
    requires LocalOk(l) && l' == ReconcileRoom(l, cfg, a, now) && k < |l'.spawns| && Only(l', k)
    requires k < |l.spawns| ==> Good(l, k)
    ensures Good(l', k)
  {
    OnlyNoted(l, cfg, a, now);
    if MaySpawn(l, a) {
      GrownGood(l, l', cfg, a, now, k);
    } else {
      GoodByFields(l, l', k);
    }
  }

  lemma OnlyEarlier(l: Local, l': Local, starts: set<Id>, now: int, k: nat)
    requires Grown(l, l', starts, now) && k < |l.spawns| && Only(l', k)
    ensures Only(l, k)
  {
    forall j | 0 <= j < |l.spawns| && j != k ensures l.spawns[j].id != l.spawns[k].id {
      assert l'.spawns[j] == l.spawns[j] && l'.spawns[k] == l.spawns[k];
    }
  }

  lemma {:induction false} ReconcileRoomsGood(l: Local, cfg: Config, desired: seq<Assignment>, now: int, k: nat)
    requires LocalOk(l) && k < |ReconcileRooms(l, cfg, desired, now).spawns|
    requires Only(ReconcileRooms(l, cfg, desired, now), k)
    requires k < |l.spawns| ==> Good(l, k)
    ensures Good(ReconcileRooms(l, cfg, desired, now), k)
    decreases |desired|
  {
    if desired != [] {
      var n := |desired| - 1;
      var l1 := ReconcileRooms(l, cfg, desired[..n], now);
      ReconcileRoomsGrow(l, cfg, desired[..n], now);
      ReconcileRoomGrows(l1, cfg, desired[n], now);
      if k < |l1.spawns| {
        OnlyEarlier(l1, ReconcileRoom(l1, cfg, desired[n], now),
                    if desired[n].room.status == Requested then Starts(l1, desired[n]) else {}, now, k);
        ReconcileRoomsGood(l, cfg, desired[..n], now, k);
      }
      ReconcileRoomGood(l1, cfg, desired[n], now, ReconcileRooms(l, cfg, desired, now), k);
    }
  }

  lemma FinishGood(l: Local, cfg: Config, desired: seq<Assignment>, reasserted: set<Id>, requestedAt: int, now: int,
                   current: bool, k: nat)
    requires LocalOk(l)
    requires var l' := FinishTick(l, cfg, desired, reasserted, requestedAt, now, current);
      k < |l'.spawns| && Only(l', k)
    requires k < |l.spawns| ==> Only(l, k) && Good(l, k)
    ensures Good(FinishTick(l, cfg, desired, reasserted, requestedAt, now, current), k)
  {
    var l0 := l.(previouslyRegistered := true);
    var targets := SweepTargets(l0, desired, reasserted, requestedAt);
    SpawnedKept(l, l0);
    DestroyAllSame(l0, targets);
    if k < |l.spawns| { DestroyAllGood(l0, targets, k); }
    if current { ReconcileRoomsGood(DestroyAll(l0, targets), cfg, desired, now, k); }
  }

  lemma AcceptGood(w: World, cfg: Config, t: nat, k: nat)
    requires LocalOk(w.l) && t in w.ticks && w.ticks[t].phase.Answered?
    requires var l' := Accept(w, cfg, t).l; k < |l'.spawns| && Only(l', k)
    requires k < |w.l.spawns| ==> Only(w.l, k) && Good(w.l, k)
    ensures Good(Accept(w, cfg, t).l, k)
  {
    CheckHeartbeatsSame(w.l, cfg, w.now);
    var l1 := CheckHeartbeats(w.l, cfg, w.now);
    if k < |w.l.spawns| { CheckHeartbeatsGood(w.l, cfg, w.now, k); }
    if EndsAtOnce(w, t) {
      FinishGood(l1, cfg, w.ticks[t].phase.desired, {}, w.ticks[t].requestedAt, w.now, true, k);
    }
  }

  lemma RoomStepGood(w: World, cfg: Config, e: Event, k: nat)
    requires LocalOk(w.l) && Enabled(w, e) && AboutRooms(e)
    requires k < |RoomStep(w, cfg, e).spawns| && Only(RoomStep(w, cfg, e), k)
    requires k < |w.l.spawns| ==> Only(w.l, k) && Good(w.l, k)
    ensures Good(RoomStep(w, cfg, e), k)
  {
    RoomStepMoves(w, cfg, e);
    match e {
      case EvPush(a) => PushGood(w.l, cfg, a, w.now, k);
      case EvMessage(j, msg) => OnMessageSame(w.l, j, msg, w.now); OnMessageGood(w.l, j, msg, w.now, k);
      case EvExit(j) => OnExitSame(w.l, j); OnExitGood(w.l, j, k);
      case EvStartupTimeout(j) => OnStartupTimeoutGood(w.l, j, k);
      case EvStartFailed(j) => StartFailedGood(w.l, j, k);
      case EvSpawnSettled(j) => SpawnSettledGood(w.l, j, k);
      case EvUnwanted(id) => DestroyGood(w.l, id, k);
      case EvShutdown => DestroyAllGood(w.l, w.l.processes.Keys, k);
    }
  }

  lemma SoundKept(w: World, cfg: Config, e: Event, w': World, k: nat)
    requires Basics(w) && Enabled(w, e) && w' == Step(w, cfg, e)
    requires k < |w'.l.spawns| && Only(w'.l, k)
    requires k < |w.l.spawns| ==> Only(w.l, k) && Good(w.l, k)
    ensures Good(w'.l, k)
  {
    if AboutRooms(e) {
      RoomStepGood(w, cfg, e, k);
    } else if e.EvAccept? {
      AcceptGood(w, cfg, e.t, k);
    } else if e.EvFinish? {
      var tick := w.ticks[e.t];
      FinishGood(w.l, cfg, tick.phase.desired, tick.phase.reasserted, tick.requestedAt, w.now, IsCurrent(w, e.t), k);
    } else {
      GoodByFields(w.l, w'.l, k);
    }
  }

  lemma {:induction false} RunGood(cfg: Config, ws: seq<World>, es: seq<Event>, n: nat, k: nat)
    requires IsRun(cfg, ws, es) && n < |ws| && k < |ws[n].l.spawns| && Count(ws[n].regs, ws[n].l.spawns[k].id) <= 1
    ensures Good(ws[n].l, k) && Only(ws[n].l, k)
    decreases n
  {
    var id := ws[n].l.spawns[k].id;
    RunOnce(cfg, ws, es, n, id);
    OnlyOne(ws[n].l, k);
    if n > 0 {
      var w := ws[n - 1];
      RunBasics(cfg, ws, es, n - 1);
      assert StepAt(cfg, ws, es, n - 1);
      StepMoves(w, cfg, es[n - 1]);
      CountGrows(w, cfg, es[n - 1], id);
      if k < |w.l.spawns| { RunGood(cfg, ws, es, n - 1, k); }
      SoundKept(w, cfg, es[n - 1], ws[n], k);
    }
  }

  /** In any run, the spawn of a room registered at most once gets at most one
      report (failure or unregister) from exit, self-stop, stall and startup
      failure together, and exactly one when it is over and the server did not
      kill it. The stall sweep only ever cuts off rooms that have spoken. */
  lemma OneTerminalReport(cfg: Config, ws: seq<World>, es: seq<Event>, n: nat, k: nat)
    requires IsRun(cfg, ws, es) && n < |ws| && k < |ws[n].l.spawns| && Count(ws[n].regs, ws[n].l.spawns[k].id) <= 1
    ensures |ws[n].l.spawns[k].reports| <= 1
    ensures ws[n].l.spawns[k].settled && ws[n].l.spawns[k].id !in ws[n].l.processes && !ws[n].l.spawns[k].killed ==>
      |ws[n].l.spawns[k].reports| == 1
    ensures ws[n].l.spawns[k].settled && ws[n].l.spawns[k].gate == Failed ==> ws[n].l.spawns[k].reports == [Failure]
    ensures ws[n].l.spawns[k].id in Stalled(ws[n].l, cfg, ws[n].now) ==>
      IsRunning(ws[n].l, k) && ws[n].l.spawns[k].started && ws[n].l.spawns[k].reports == []
    ensures ws[n].l.lastHeartbeats.Keys <= ws[n].l.processes.Keys
  {
    RunGood(cfg, ws, es, n, k);
    RunBasics(cfg, ws, es, n);
  }
}
