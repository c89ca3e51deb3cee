/** Which rooms a step of the server starts, which it reports as lost, and which
    attempts it forgets (src/server/server.ts). */
module ServerStarts {
  import opened Prelude
  import opened Store
  import opened ServerSpec
  import opened ServerInvariant
  import opened ServerRuns
  import opened ServerOutcomes

  // --- starting ---

  /** The server may start the room: it runs none, starts none, has tried none. */
  predicate MayStart(l: Local, id: Id) {
    l.alive && id !in l.processes && id !in l.spawning && id !in l.attempted
  }

  predicate Requests(desired: seq<Assignment>, id: Id) {
    exists i :: 0 <= i < |desired| && desired[i].id == id && desired[i].room.status == Requested
  }

  /** A spawn as an assignment asks for it, with or without a runner for its type. */
  predicate StartedFrom(s: Spawn, a: Assignment, cfg: Config) {
    && s.id == a.id && s.roomType == a.room.roomType && s.data == a.room.data && s.secret == a.secret
    && s.endpoint == None && s.life == Starting && !s.started && !s.exited && !s.killed && !s.settled && s.reports == []
    && (s.ran <==> a.room.roomType in cfg.runners) && s.gate == (if s.ran then Waiting else Failed)
  }

  /** A push starts a room that may be started, under the process record its
      callbacks need, and changes nothing otherwise. */
  lemma PushStartsIff(w: World, cfg: Config, a: Assignment, w': World)
    requires LocalOk(w.l) && Enabled(w, EvPush(a)) && w' == Step(w, cfg, EvPush(a))
    ensures !MayStart(w.l, a.id) ==> w' == w
    ensures MayStart(w.l, a.id) ==>
      && |w'.l.spawns| == |w.l.spawns| + 1 && w'.l.spawns[..|w.l.spawns|] == w.l.spawns
      && StartedFrom(w'.l.spawns[|w.l.spawns|], a, cfg)
      && w'.l.attempted == w.l.attempted[a.id := w.now] && a.id in w'.l.spawning
      && (a.room.roomType in cfg.runners ==> a.id in w'.l.processes && w'.l.processes[a.id] == |w.l.spawns|)
      && (a.room.roomType !in cfg.runners ==> a.id !in w'.l.processes)
  {
  }

  ghost predicate StartedIn(l: Local, l': Local, id: Id) {
    exists k :: |l.spawns| <= k < |l'.spawns| && l'.spawns[k].id == id
  }

  /** What the reconcile loop has done about one room. */
  ghost predicate StartsSoFar(l: Local, l': Local, starts: bool, id: Id) {
    && l'.alive == l.alive && |l.spawns| <= |l'.spawns| && (starts <==> StartedIn(l, l', id))
    && (starts ==> id in l'.attempted && id in l'.spawning)
    && (!starts ==>
          && (id in l'.processes <==> id in l.processes) && (id in l'.spawning <==> id in l.spawning)
          && (id in l'.attempted <==> id in l.attempted))
  }

  lemma RequestsMore(desired: seq<Assignment>, id: Id)
    requires desired != []
    ensures var n := |desired| - 1;
      Requests(desired, id) <==>
        Requests(desired[..n], id) || (desired[n].id == id && desired[n].room.status == Requested)
  {
    var n := |desired| - 1;
    assert forall i :: 0 <= i < n ==> desired[..n][i] == desired[i];
    if Requests(desired[..n], id) {
      var i :| 0 <= i < n && desired[..n][i].id == id && desired[..n][i].room.status == Requested;
      assert desired[i].id == id;
    }
  }

  predicate StartsOne(l: Local, a: Assignment) {
    a.room.status == Requested && l.alive && a.id !in l.processes && a.id !in l.spawning && a.id !in l.attempted
  }

  lemma OneRoomStarts(l: Local, cfg: Config, a: Assignment, now: int, l': Local, id: Id)
    requires StartsOne(l, a) && l' == ReconcileRoom(l, cfg, a, now)
    ensures StartsSoFar(l, l', a.id == id, id) && l'.spawns[..|l.spawns|] == l.spawns
  {
    assert l'.spawns[|l.spawns|].id == a.id && |l'.spawns| == |l.spawns| + 1;
  }

  lemma OneRoomLeft(l: Local, cfg: Config, a: Assignment, now: int, l': Local, id: Id)
    requires !StartsOne(l, a) && l' == ReconcileRoom(l, cfg, a, now)
    ensures StartsSoFar(l, l', false, id) && l'.spawns == l.spawns
  {
    LeftAlone(l, cfg, a, now, l');
    NotedOnly(l, l'.lostSince, l'.lost, id);
  }

  lemma LeftAlone(l: Local, cfg: Config, a: Assignment, now: int, l': Local)
    requires !StartsOne(l, a) && l' == ReconcileRoom(l, cfg, a, now)
    ensures l' == l.(lostSince := l'.lostSince, lost := l'.lost)
  {
  }

  lemma NotedOnly(l: Local, lostSince: map<Id, int>, lost: seq<Id>, id: Id)
    ensures StartsSoFar(l, l.(lostSince := lostSince, lost := lost), false, id)
  {
  }

  lemma StartsTwice(l: Local, l1: Local, l': Local, starts: bool, more: bool, id: Id)
    requires StartsSoFar(l, l1, starts, id) && StartsSoFar(l1, l', more, id) && l'.spawns[..|l1.spawns|] == l1.spawns
    requires !(starts && more)
    ensures StartsSoFar(l, l', starts || more, id)
  {
    if StartedIn(l, l1, id) {
      var k :| |l.spawns| <= k < |l1.spawns| && l1.spawns[k].id == id;
      assert l'.spawns[..|l1.spawns|][k].id == id;
    }
    if StartedIn(l, l', id) {
      var k :| |l.spawns| <= k < |l'.spawns| && l'.spawns[k].id == id;
      if k < |l1.spawns| { assert l'.spawns[..|l1.spawns|][k].id == id; }
    }
  }

  lemma {:induction false} ReconcileStarts(l: Local, cfg: Config, desired: seq<Assignment>, now: int, id: Id)
    ensures StartsSoFar(l, ReconcileRooms(l, cfg, desired, now), MayStart(l, id) && Requests(desired, id), id)
    decreases |desired|
  {
    if desired != [] {
      var n := |desired| - 1;
      var l1, l' := ReconcileRooms(l, cfg, desired[..n], now), ReconcileRooms(l, cfg, desired, now);
      ReconcileStarts(l, cfg, desired[..n], now, id);
      RequestsMore(desired, id);
      var starts := MayStart(l, id) && Requests(desired[..n], id);
      var more := StartsOne(l1, desired[n]) && desired[n].id == id;
      if StartsOne(l1, desired[n]) {
        OneRoomStarts(l1, cfg, desired[n], now, l', id);
      } else {
        OneRoomLeft(l1, cfg, desired[n], now, l', id);
      }
      StartsTwice(l, l1, l', starts, more, id);
    }
  }

  /** Every new spawn is as some requested entry of the list asks for it. */
  ghost predicate AllFrom(l: Local, l': Local, cfg: Config, desired: seq<Assignment>) {
    forall k {:trigger l'.spawns[k]} :: |l.spawns| <= k < |l'.spawns| ==> FromList(l'.spawns[k], cfg, desired)
  }

  predicate FromList(s: Spawn, cfg: Config, desired: seq<Assignment>) {
    exists i {:trigger desired[i]} ::
      0 <= i < |desired| && desired[i].room.status == Requested && StartedFrom(s, desired[i], cfg)
  }

  lemma FromLonger(s: Spawn, cfg: Config, desired: seq<Assignment>, n: nat)
    requires n <= |desired| && FromList(s, cfg, desired[..n])
    ensures FromList(s, cfg, desired)
  {
    var i :| 0 <= i < n && desired[..n][i].room.status == Requested && StartedFrom(s, desired[..n][i], cfg);
    assert desired[..n][i] == desired[i];
  }

  lemma {:induction false} ReconcileFrom(l: Local, cfg: Config, desired: seq<Assignment>, now: int)
    requires LocalOk(l)
    ensures AllFrom(l, ReconcileRooms(l, cfg, desired, now), cfg, desired)
    decreases |desired|
  {
    if desired != [] {
      var n := |desired| - 1;
      var l1, l' := ReconcileRooms(l, cfg, desired[..n], now), ReconcileRooms(l, cfg, desired, now);
      ReconcileFrom(l, cfg, desired[..n], now);
      ReconcileRoomsGrow(l, cfg, desired[..n], now);
      ReconcileRoomGrows(l1, cfg, desired[n], now);
      forall k | |l.spawns| <= k < |l'.spawns| ensures FromList(l'.spawns[k], cfg, desired) {
        if k < |l1.spawns| {
          assert l'.spawns[k] == l1.spawns[k];
          FromLonger(l1.spawns[k], cfg, desired, n);
        } else {
          LastFrom(l1, cfg, desired[n], now, k);
        }
      }
    }
  }

  lemma LastFrom(l: Local, cfg: Config, a: Assignment, now: int, k: nat)
    requires |l.spawns| <= k < |ReconcileRoom(l, cfg, a, now).spawns|
    ensures a.room.status == Requested && StartedFrom(ReconcileRoom(l, cfg, a, now).spawns[k], a, cfg)
  {
  }

  /** The tick's end reconciles: it sweeps, and is still the current tick. */
  predicate Reconciles(w: World, e: Event) { SweepsNow(w, e) && w.current == Some(e.t) }

  /** The room is running when the reconcile begins. */
  predicate StillRunning(w: World, cfg: Config, e: Event, id: Id) {
    id in w.l.processes && !(e.EvAccept? && Silent(w.l, cfg, w.now, id))
  }

  /** The reconcile of a tick that ends starts exactly the rooms that its snapshot
      lists as requested and that the server neither runs, nor is starting, nor has
      tried; each as listed, and each attempted from now on. */
  lemma TickStartsIff(cfg: Config, ws: seq<World>, es: seq<Event>, n: nat, id: Id)
    requires IsRun(cfg, ws, es) && n < |es| && Reconciles(ws[n], es[n])
    ensures var w, w', desired := ws[n], ws[n + 1], Snapshot(ws[n].ticks[es[n].t].phase);
      && (StartedIn(w.l, w'.l, id) <==>
            Requests(desired, id) && w.l.alive && !StillRunning(w, cfg, es[n], id)
            && id !in w.l.spawning && id !in w.l.attempted)
      && AllFrom(w.l, w'.l, cfg, desired)
      && (StartedIn(w.l, w'.l, id) ==> id in w'.l.attempted && w'.l.attempted[id] == w.now)
  {
    RunBasics(cfg, ws, es, n);
    assert StepAt(cfg, ws, es, n);
    var w, e := ws[n], es[n];
    var tick := w.ticks[e.t];
    assert TickOk(w, e.t);
    CheckHeartbeatsSame(w.l, cfg, w.now);
    CheckKeeps(w.l, cfg, w.now, CheckHeartbeats(w.l, cfg, w.now), id);
    CheckFields(w.l, cfg, w.now);
    var l0 := if e.EvAccept? then CheckHeartbeats(w.l, cfg, w.now) else w.l;
    FinishStartsIff(l0, cfg, tick.phase.desired, Reasserted(tick.phase), tick.requestedAt, w.now, id, ws[n + 1].l);
  }

  lemma CheckFields(l: Local, cfg: Config, now: int)
    ensures var l' := CheckHeartbeats(l, cfg, now);
      && |l'.spawns| == |l.spawns| && l'.alive == l.alive && l'.spawning == l.spawning && l'.attempted == l.attempted
      && l'.lostSince == l.lostSince && l'.lost == l.lost && l'.previouslyRegistered == l.previouslyRegistered
  {
  }

  lemma FinishStartsIff(l: Local, cfg: Config, desired: seq<Assignment>, reasserted: set<Id>, at: int, now: int, id: Id,
                        l': Local)
    requires LocalOk(l) && at <= now && l' == FinishTick(l, cfg, desired, reasserted, at, now, true)
    ensures StartedIn(l, l', id) <==> Requests(desired, id) && MayStart(l, id)
    ensures AllFrom(l, l', cfg, desired)
    ensures StartedIn(l, l', id) ==> id in l'.attempted && l'.attempted[id] == now
  {
    var l0 := l.(previouslyRegistered := true);
    var l1 := DestroyAll(l0, SweepTargets(l0, desired, reasserted, at));
    SpawnedKept(l, l0);
    DestroyAllSame(l0, SweepTargets(l0, desired, reasserted, at));
    ReconcileStarts(l1, cfg, desired, now, id);
    ReconcileFrom(l1, cfg, desired, now);
    ReconcileRoomsGrow(l1, cfg, desired, now);
    StartedAreKept(ReconcileRooms(l1, cfg, desired, now), desired, at, now, id);
  }

  lemma StartedAreKept(l: Local, desired: seq<Assignment>, at: int, now: int, id: Id)
    requires at <= now
    ensures id in l.attempted && l.attempted[id] == now ==>
      id in ForgetUndesired(l, desired, at, now).attempted
        && ForgetUndesired(l, desired, at, now).attempted[id] == now
  {
  }

  // --- rooms that are lost ---

  /** The driver takes the room for running and the server neither runs nor starts it. */
  predicate Missed(l: Local, a: Assignment) {
    a.room.status != Requested && a.id !in l.processes && a.id !in l.spawning
  }

  /** The room has been missed for the stall timeout. */
  predicate MissedLong(l: Local, cfg: Config, now: int, id: Id) {
    id in l.lostSince && now - l.lostSince[id] >= cfg.stallMs
  }

  function Times(s: seq<Id>, id: Id): nat { multiset(s)[id] }

  /** A missed room is noted, and reported once it has been missed for long enough,
      which starts the wait anew; a room that is there is no longer noted. */
  ghost predicate Noted(l: Local, cfg: Config, l': Local, a: Assignment, now: int) {
    && Times(l'.lost, a.id) == Times(l.lost, a.id) + (if Missed(l, a) && MissedLong(l, cfg, now, a.id) then 1 else 0)
    && (Missed(l, a) && MissedLong(l, cfg, now, a.id) ==> a.id !in l'.lostSince)
    && (Missed(l, a) && !MissedLong(l, cfg, now, a.id) ==>
          a.id in l'.lostSince
          && l'.lostSince[a.id] == if a.id in l.lostSince then l.lostSince[a.id] else now)
    && (a.id in l.processes || a.id in l.spawning ==> a.id !in l'.lostSince)
  }

  lemma OneRoomNoted(l: Local, cfg: Config, a: Assignment, now: int)
    ensures Noted(l, cfg, ReconcileRoom(l, cfg, a, now), a, now)
  {
    var l' := ReconcileRoom(l, cfg, a, now);
    if Missed(l, a) && MissedLong(l, cfg, now, a.id) {
      assert l'.lost == l.lost + [a.id];
    } else {
      assert l'.lost == l.lost;
    }
  }

  /** The entries of other rooms do not matter. */
  predicate SameNote(l: Local, l': Local, id: Id) {
    && Times(l'.lost, id) == Times(l.lost, id)
    && (id in l'.lostSince <==> id in l.lostSince)
    && (id in l.lostSince ==> l'.lostSince[id] == l.lostSince[id])
    && (id in l'.processes <==> id in l.processes) && (id in l'.spawning <==> id in l.spawning)
  }

  lemma OtherRoomNoted(l: Local, cfg: Config, a: Assignment, now: int, id: Id)
    requires a.id != id
    ensures SameNote(l, ReconcileRoom(l, cfg, a, now), id)
  {
    var l' := ReconcileRoom(l, cfg, a, now);
    if StartsOne(l, a) {
      OneRoomStarts(l, cfg, a, now, l', id);
      StartingNotes(l, cfg, a, now);
    } else {
      OneRoomLeft(l, cfg, a, now, l', id);
      if Missed(l, a) { MissingNotes(l, cfg, a, now, id); } else { PresentNotes(l, cfg, a, now, l'); }
    }
  }

  lemma StartingNotes(l: Local, cfg: Config, a: Assignment, now: int)
    requires StartsOne(l, a)
    ensures ReconcileRoom(l, cfg, a, now).lost == l.lost && ReconcileRoom(l, cfg, a, now).lostSince == l.lostSince
  {
  }

  lemma PresentNotes(l: Local, cfg: Config, a: Assignment, now: int, l': Local)
    requires !StartsOne(l, a) && !Missed(l, a) && l' == ReconcileRoom(l, cfg, a, now)
    ensures l'.lost == l.lost && (l'.lostSince == l.lostSince || l'.lostSince == l.lostSince - {a.id})
  {
  }

  lemma MissingNotes(l: Local, cfg: Config, a: Assignment, now: int, id: Id)
    requires Missed(l, a) && a.id != id
    ensures var l' := ReconcileRoom(l, cfg, a, now);
      && Times(l'.lost, id) == Times(l.lost, id)
      && (id in l'.lostSince <==> id in l.lostSince)
      && (id in l.lostSince ==> l'.lostSince[id] == l.lostSince[id])
  {
    var l' := ReconcileRoom(l, cfg, a, now);
    if MissedLong(l, cfg, now, a.id) { assert l'.lost == l.lost + [a.id]; } else { assert l'.lost == l.lost; }
  }

  /** The list names each room once. */
  predicate Distinct(desired: seq<Assignment>) {
    forall i, j :: 0 <= i < j < |desired| ==> desired[i].id != desired[j].id
  }

  lemma {:induction false} UnlistedNoted(l: Local, cfg: Config, desired: seq<Assignment>, now: int, id: Id)
    requires NotListed(desired, id)
    ensures SameNote(l, ReconcileRooms(l, cfg, desired, now), id)
    decreases |desired|
  {
    if desired != [] {
      var n := |desired| - 1;
      UnlistedNoted(l, cfg, desired[..n], now, id);
      OtherRoomNoted(ReconcileRooms(l, cfg, desired[..n], now), cfg, desired[n], now, id);
    }
  }

  lemma {:induction false} ListedNoted(l: Local, cfg: Config, desired: seq<Assignment>, now: int, i: nat)
    requires Distinct(desired) && i < |desired|
    ensures Noted(l, cfg, ReconcileRooms(l, cfg, desired, now), desired[i], now)
    decreases |desired|
  {
    var n := |desired| - 1;
    var l1 := ReconcileRooms(l, cfg, desired[..n], now);
    if i == n {
      UnlistedNoted(l, cfg, desired[..n], now, desired[n].id);
      OneRoomNoted(l1, cfg, desired[n], now);
    } else {
      assert Distinct(desired[..n]) && desired[..n][i] == desired[i];
      ListedNoted(l, cfg, desired[..n], now, i);
      OtherRoomNoted(l1, cfg, desired[n], now, desired[i].id);
    }
  }

  /** The attempts a tick forgets: not listed, not made since it asked, and old. */
  predicate Forgettable(l: Local, desired: seq<Assignment>, at: int, now: int, id: Id)
    requires id in l.attempted
  {
    NotListed(desired, id) && l.attempted[id] < at && now - l.attempted[id] > ATTEMPT_RETENTION_MS
  }

  lemma ForgottenIff(l: Local, desired: seq<Assignment>, at: int, now: int, id: Id)
    ensures var l' := ForgetUndesired(l, desired, at, now);
      && (id in l'.attempted <==> id in l.attempted && !Forgettable(l, desired, at, now, id))
      && (id in l'.lostSince <==> id in l.lostSince && !NotListed(desired, id))
      && (id in l'.lostSince ==> l'.lostSince[id] == l.lostSince[id])
      && l'.lost == l.lost
  {
    ListedIff(desired, id);
  }

  /** The reconcile begins with what the stall check and the sweep have left. */
  ghost predicate BeginsWith(w: World, cfg: Config, e: Event, l: Local, id: Id) {
    && (id in l.processes <==> StillRunning(w, cfg, e, id)) && l.spawning == w.l.spawning
    && l.lostSince == w.l.lostSince && l.lost == w.l.lost && l.attempted == w.l.attempted
  }

  /** The reconcile of a tick that ends. */
  lemma ReconcileOf(w: World, cfg: Config, e: Event, w': World, id: Id) returns (l: Local)
    requires LocalOk(w.l) && Enabled(w, e) && Reconciles(w, e) && w' == Step(w, cfg, e)
    ensures BeginsWith(w, cfg, e, l, id)
    ensures var tick := w.ticks[e.t];
      w'.l == ForgetUndesired(ReconcileRooms(l, cfg, Snapshot(tick.phase), w.now), Snapshot(tick.phase),
                              tick.requestedAt, w.now)
  {
    var tick := w.ticks[e.t];
    CheckKeeps(w.l, cfg, w.now, CheckHeartbeats(w.l, cfg, w.now), id);
    CheckFields(w.l, cfg, w.now);
    var l0 := (if e.EvAccept? then CheckHeartbeats(w.l, cfg, w.now) else w.l).(previouslyRegistered := true);
    l := DestroyAll(l0, SweepTargets(l0, Snapshot(tick.phase), Reasserted(tick.phase), tick.requestedAt));
  }

  /** A tick that ends reports a listed room as lost exactly when the driver takes it
      for running, the server neither runs nor starts it, and it has been missed
      for the stall timeout; a room missed for less stays noted since when; any
      other is noted no longer or not at all, and not reported. */
  lemma LostIff(cfg: Config, ws: seq<World>, es: seq<Event>, n: nat, i: nat)
    requires IsRun(cfg, ws, es) && n < |es| && Reconciles(ws[n], es[n])
    requires var desired := Snapshot(ws[n].ticks[es[n].t].phase); Distinct(desired) && i < |desired|
    ensures var w, w', a := ws[n], ws[n + 1], Snapshot(ws[n].ticks[es[n].t].phase)[i];
      var missed := a.room.status != Requested && !StillRunning(w, cfg, es[n], a.id) && a.id !in w.l.spawning;
      var long := MissedLong(w.l, cfg, w.now, a.id);
      && Times(w'.l.lost, a.id) == Times(w.l.lost, a.id) + (if missed && long then 1 else 0)
      && (missed && long ==> a.id !in w'.l.lostSince)
      && (missed && !long ==>
            a.id in w'.l.lostSince
            && w'.l.lostSince[a.id] == if a.id in w.l.lostSince then w.l.lostSince[a.id] else w.now)
      && (StillRunning(w, cfg, es[n], a.id) || a.id in w.l.spawning ==> a.id !in w'.l.lostSince)
  {
    RunBasics(cfg, ws, es, n);
    assert StepAt(cfg, ws, es, n);
    var w, tick := ws[n], ws[n].ticks[es[n].t];
    var desired := Snapshot(tick.phase);
    var l := ReconcileOf(w, cfg, es[n], ws[n + 1], desired[i].id);
    ListedNoted(l, cfg, desired, w.now, i);
    ForgottenIff(ReconcileRooms(l, cfg, desired, w.now), desired, tick.requestedAt, w.now, desired[i].id);
  }

  /** A room that is not listed is not reported, and no longer noted. */
  lemma UnlistedIsNotLost(cfg: Config, ws: seq<World>, es: seq<Event>, n: nat, id: Id)
    requires IsRun(cfg, ws, es) && n < |es| && Reconciles(ws[n], es[n])
    requires NotListed(Snapshot(ws[n].ticks[es[n].t].phase), id)
    ensures Times(ws[n + 1].l.lost, id) == Times(ws[n].l.lost, id) && id !in ws[n + 1].l.lostSince
  {
    RunBasics(cfg, ws, es, n);
    assert StepAt(cfg, ws, es, n);
    var w, tick := ws[n], ws[n].ticks[es[n].t];
    var desired := Snapshot(tick.phase);
    var l := ReconcileOf(w, cfg, es[n], ws[n + 1], id);
    UnlistedNoted(l, cfg, desired, w.now, id);
    ForgottenIff(ReconcileRooms(l, cfg, desired, w.now), desired, tick.requestedAt, w.now, id);
  }

  /** A tick that ends forgets exactly the attempts of rooms that are not listed,
      that were made before the tick asked, and that are older than the retention. */
  lemma AttemptForgottenIff(cfg: Config, ws: seq<World>, es: seq<Event>, n: nat, id: Id)
    requires IsRun(cfg, ws, es) && n < |es| && Reconciles(ws[n], es[n]) && id in ws[n].l.attempted
    ensures var w, w', tick := ws[n], ws[n + 1], ws[n].ticks[es[n].t];
      id !in w'.l.attempted <==>
        NotListed(Snapshot(tick.phase), id) && w.l.attempted[id] < tick.requestedAt
        && w.now - w.l.attempted[id] > ATTEMPT_RETENTION_MS
  {
    RunBasics(cfg, ws, es, n);
    assert StepAt(cfg, ws, es, n);
    var w, tick := ws[n], ws[n].ticks[es[n].t];
    var desired := Snapshot(tick.phase);
    var l := ReconcileOf(w, cfg, es[n], ws[n + 1], id);
    AttemptsStand(l, cfg, desired, w.now, id);
    ForgottenIff(ReconcileRooms(l, cfg, desired, w.now), desired, tick.requestedAt, w.now, id);
  }

  lemma {:induction false} AttemptsStand(l: Local, cfg: Config, desired: seq<Assignment>, now: int, id: Id)
    requires id in l.attempted
    ensures var l' := ReconcileRooms(l, cfg, desired, now);
      id in l'.attempted && l'.attempted[id] == l.attempted[id]
    decreases |desired|
  {
    if desired != [] { AttemptsStand(l, cfg, desired[..|desired| - 1], now, id); }
  }

  // --- ticks that wait ---

  /** An answer to a tick that is no longer current changes nothing about the rooms.
      A current one ends the tick, unless the driver had lost the server's record
      since an earlier tick: then the tick goes on to re-assert. */
  lemma RecoversIff(cfg: Config, ws: seq<World>, es: seq<Event>, n: nat, t: nat)
    requires IsRun(cfg, ws, es) && n < |es| && es[n] == EvAccept(t)
    ensures var w, w' := ws[n], ws[n + 1];
      && t in w.ticks && w.ticks[t].phase.Answered?
      && (w.current != Some(t) ==> w'.l == w.l && t !in w'.ticks)
      && (t in w'.ticks <==> w.current == Some(t) && w.ticks[t].phase.registered && w.l.previouslyRegistered)
      && (t in w'.ticks ==>
            w'.ticks[t].phase == Recovering(w.ticks[t].phase.desired, {}, None) && w'.current == Some(t))
      && (w.current == Some(t) && t !in w'.ticks ==> w'.l.previouslyRegistered)
  {
    RunBasics(cfg, ws, es, n);
    assert StepAt(cfg, ws, es, n);
    AcceptEnds(ws[n], cfg, t, ws[n + 1]);
  }

  lemma AcceptEnds(w: World, cfg: Config, t: nat, w': World)
    requires LocalOk(w.l) && Enabled(w, EvAccept(t)) && w' == Accept(w, cfg, t)
    ensures w.current != Some(t) ==> w'.l == w.l && t !in w'.ticks
    ensures t in w'.ticks <==> w.current == Some(t) && w.ticks[t].phase.registered && w.l.previouslyRegistered
    ensures t in w'.ticks ==>
      w'.ticks[t].phase == Recovering(w.ticks[t].phase.desired, {}, None) && w'.current == Some(t)
    ensures w.current == Some(t) && t !in w'.ticks ==> w'.l.previouslyRegistered
  {
    var l1 := CheckHeartbeats(w.l, cfg, w.now);
    CheckHeartbeatsSame(w.l, cfg, w.now);
    if w.current == Some(t) && !(w.ticks[t].phase.registered && w.l.previouslyRegistered) {
      FinishRegisters(l1, cfg, w.ticks[t].phase.desired, {}, w.ticks[t].requestedAt, w.now, true);
    }
  }

  lemma FinishRegisters(l: Local, cfg: Config, desired: seq<Assignment>, reasserted: set<Id>, at: int, now: int,
                        current: bool)
    ensures FinishTick(l, cfg, desired, reasserted, at, now, current).previouslyRegistered
  {
    var l0 := l.(previouslyRegistered := true);
    StaysRegistered(DestroyAll(l0, SweepTargets(l0, desired, reasserted, at)), cfg, desired, now);
  }

  lemma {:induction false} StaysRegistered(l: Local, cfg: Config, desired: seq<Assignment>, now: int)
    ensures ReconcileRooms(l, cfg, desired, now).previouslyRegistered == l.previouslyRegistered
    decreases |desired|
  {
    if desired != [] {
      var n := |desired| - 1;
      StaysRegistered(l, cfg, desired[..n], now);
      OneStaysRegistered(ReconcileRooms(l, cfg, desired[..n], now), cfg, desired[n], now);
    }
  }

  lemma OneStaysRegistered(l: Local, cfg: Config, a: Assignment, now: int)
    ensures ReconcileRoom(l, cfg, a, now).previouslyRegistered == l.previouslyRegistered
  {
  }
}
