/** Waiting for a freshly created room (src/driver/wait-for-room.ts) as the sdk's
    createRoom uses it (src/sdk/index.ts), over a driver record with a ttl. */
module WaitForRoom {
  import opened Prelude

  const REQUESTED_ROOM_TTL_MARGIN_MS := 10_000

  datatype Status = Requested | Running

  datatype Error = RegistrationFailed | StartError | Removed | Failed(reason: string) | TimedOut

  datatype Outcome = Resolved(status: Status) | Rejected(error: Error)

  /** A read of the record: issued, then served by the driver, then resolved. */
  datatype Read = Read(afterReady: bool, registeredWhenIssued: bool, served: Option<Option<Status>>, done: bool)

  /** The signal subscription: not landed yet, held, or released. */
  datatype Subscription = Pending | Held | Released | NotLanded

  /** The driver's record, and when a requested one lapses. */
  datatype Record = Absent | Present(status: Status, expiresAt: int)

  datatype World = World(
    now: int,
    deadline: int,
    // the waiter's locals
    settled: bool,
    isRegistered: bool,
    subscription: Subscription,
    lookups: seq<Read>,
    // the driver
    record: Record,
    registered: bool,
    removed: bool,
    madeReady: bool,
    // createRoom has called unregister after a failed wait
    cleanedUp: bool,
    // history: the promise's outcome, and calls of resolve/reject and of unsub
    outcome: Option<Outcome>,
    settles: nat,
    releases: nat)

  function Init(now: int, timeoutMs: nat): World {
    World(now, now + timeoutMs, false, false, Pending, [Read(false, false, None, false)],
          Absent, false, false, false, false, None, 0, 0)
  }

  function Finish(w: World, o: Outcome): World {
    if w.settled then w
    else
      w.(settled := true, outcome := Some(o), settles := w.settles + 1,
         subscription := if w.subscription == Held then Released else w.subscription,
         releases := if w.subscription == Held then w.releases + 1 else w.releases)
  }

  function Check(w: World, afterReady: bool): World {
    w.(lookups := w.lookups + [Read(afterReady, w.isRegistered, None, false)])
  }

  /** The continuation of a read that resolved. */
  function ReadDone(w: World, i: nat): World
    requires i < |w.lookups| && w.lookups[i].served.Some?
  {
    var r := w.lookups[i];
    var w1 := w.(lookups := w.lookups[i := r.(done := true)]);
    var info := r.served.value;
    if w.settled then w1
    else if info == Some(Running) then Finish(w1, Resolved(Running))
    else if info.None? && r.afterReady then Finish(w1, Rejected(StartError))
    else if info.None? && r.registeredWhenIssued then Finish(w1, Rejected(Removed))
    else w1
  }

  function Subscribed(w: World): World {
    if w.settled then w.(subscription := Released, releases := w.releases + 1)
    else Check(w.(subscription := Held), false)
  }

  /** What a read sees: a lapsed requested record is gone. */
  function Visible(w: World): Option<Status> {
    if w.record.Present? && (w.record.status == Running || w.now <= w.record.expiresAt) then
      Some(w.record.status)
    else None
  }

  datatype Event =
    // the driver, the sdk and the server
    | EvRegister(ttlMs: nat)      // the record is written
    | EvRemove                    // it is unregistered, failed or reaped
    | EvReassert(ttlMs: nat)      // a reaped server writes it again
    | EvMakeReady                 // roomReady found the record
    | EvServe(i: nat)             // read i reaches the driver
    | EvCleanUp                   // createRoom's catch: unregister, then rethrow
    | EvCleanUpFailed             // unregister threw, which the catch swallows
    | EvTime(now: int)
    // what the waiter reacts to
    | EvRegistered
    | EvRegistrationFailed
    | EvReadDone(i: nat)
    | EvReadFailed(i: nat)
    | EvPoll
    | EvTimeout
    | EvReady
    | EvFailed(reason: string)
    | EvSubscribed
    | EvSubscribeFailed

  predicate ForWaiter(e: Event) {
    || e.EvRegistered? || e.EvRegistrationFailed? || e.EvReadDone? || e.EvReadFailed? || e.EvPoll? || e.EvTimeout?
    || e.EvReady? || e.EvFailed? || e.EvSubscribed? || e.EvSubscribeFailed?
  }

  /** How long the wait is, and how late its timeout may fire. */
  datatype Timing = Timing(timeoutMs: nat, lateMs: nat)

  /** The record is registered once, with createRoom's ttl; the registration
      promise settles after it; a ready signal follows a roomReady that found the
      record; the timeout fires at most `lateMs` late. */
  predicate Enabled(t: Timing, w: World, e: Event) {
    match e
    case EvRegister(ttlMs) => !w.registered && ttlMs == t.timeoutMs + REQUESTED_ROOM_TTL_MARGIN_MS
    case EvRemove => w.registered
    case EvReassert(_) => w.removed
    case EvMakeReady => Visible(w).Some?
    case EvServe(i) => i < |w.lookups| && w.lookups[i].served.None? && !w.lookups[i].done
    case EvCleanUp => w.isRegistered && !w.cleanedUp && w.outcome.Some? && w.outcome.value.Rejected?
    case EvCleanUpFailed => w.isRegistered && !w.cleanedUp && w.outcome.Some? && w.outcome.value.Rejected?
    case EvTime(now) => w.now <= now && (!w.settled ==> now <= w.deadline + t.lateMs)
    case EvRegistered => w.registered && !w.isRegistered
    case EvRegistrationFailed => !w.registered && !w.isRegistered
    case EvReadDone(i) => i < |w.lookups| && w.lookups[i].served.Some? && !w.lookups[i].done
    case EvReadFailed(i) => i < |w.lookups| && !w.lookups[i].done
    case EvPoll => !w.settled
    case EvTimeout => !w.settled && w.now >= w.deadline
    case EvReady => w.madeReady
    case EvFailed(_) => true
    case EvSubscribed => w.subscription == Pending
    case EvSubscribeFailed => w.subscription == Pending
  }

  function Step(w: World, e: Event): World
    requires e.EvServe? || e.EvReadDone? || e.EvReadFailed? ==> e.i < |w.lookups|
    requires e.EvReadDone? ==> w.lookups[e.i].served.Some?
  {
    match e
    case EvRegister(ttlMs) => w.(record := Present(Requested, w.now + ttlMs), registered := true)
    case EvRemove => w.(record := Absent, removed := true)
    case EvReassert(ttlMs) => w.(record := Present(Requested, w.now + ttlMs))
    case EvMakeReady =>
      w.(record := if w.record.Present? then w.record.(status := Running) else w.record, madeReady := true)
    case EvServe(i) => w.(lookups := w.lookups[i := w.lookups[i].(served := Some(Visible(w)))])
    case EvCleanUp => w.(record := Absent, cleanedUp := true)
    case EvCleanUpFailed => w.(cleanedUp := true)
    case EvTime(now) => w.(now := now)
    case EvRegistered => Check(w.(isRegistered := true), false)
    case EvRegistrationFailed => Finish(w, Rejected(RegistrationFailed))
    case EvReadDone(i) => ReadDone(w, i)
    case EvReadFailed(i) => w.(lookups := w.lookups[i := w.lookups[i].(done := true)])
    case EvPoll => Check(w, false)
    case EvTimeout => Finish(w, Rejected(TimedOut))
    case EvReady => Check(w, true)
    case EvFailed(reason) => Finish(w, Rejected(Failed(reason)))
    case EvSubscribed => Subscribed(w)
    case EvSubscribeFailed => w.(subscription := NotLanded)
  }

  // --- the invariant, clause by clause ---

  /** The promise settles once, the subscription is released once. */
  ghost predicate GoodPromise(w: World) {
    && w.settles == (if w.settled then 1 else 0) && (w.settled <==> w.outcome.Some?)
    && w.releases == (if w.subscription == Released then 1 else 0)
    && (w.subscription == Held ==> !w.settled) && (w.subscription == Released ==> w.settled)
  }

  /** A record nobody removed is there, and was written to outlive the wait by the margin. */
  ghost predicate GoodRecord(t: Timing, w: World) {
    && (w.isRegistered || w.madeReady || w.removed || w.record.Present? ==> w.registered)
    && (w.cleanedUp ==> w.settled && w.registered)
    && w.now + t.timeoutMs >= w.deadline && (!w.settled ==> w.now <= w.deadline + t.lateMs)
    && (w.registered && !w.removed && !w.cleanedUp ==>
          w.record.Present? && w.record.expiresAt >= w.deadline + REQUESTED_ROOM_TTL_MARGIN_MS)
    && (w.madeReady && !w.removed && !w.cleanedUp ==> w.record.status == Running)
    && (w.record.Present? && w.record.status == Running ==> w.madeReady)
  }

  /** While the wait is on, a miss after a ready signal is a removal, and so is
      one after registration unless the timeout may be later than the margin. */
  ghost predicate GoodRead(t: Timing, w: World, r: Read) {
    && (r.registeredWhenIssued ==> w.isRegistered)
    && (r.afterReady ==> w.madeReady)
    && (!w.settled && r.served == Some(None) && r.afterReady ==> w.removed)
    && (!w.settled && r.served == Some(None) && r.registeredWhenIssued ==>
      w.removed || t.lateMs > REQUESTED_ROOM_TTL_MARGIN_MS)
    && (r.served == Some(Some(Running)) ==> w.madeReady)
  }

  ghost predicate GoodReads(t: Timing, w: World) {
    forall i {:trigger w.lookups[i]} :: 0 <= i < |w.lookups| ==> GoodRead(t, w, w.lookups[i])
  }

  ghost predicate GoodOutcome(t: Timing, w: World) {
    && (w.outcome.Some? && w.outcome.value.Resolved? ==> w.outcome.value.status == Running && w.madeReady)
    && (w.outcome == Some(Rejected(StartError)) ==> w.removed && w.madeReady)
    && (w.outcome == Some(Rejected(Removed)) ==> w.removed || t.lateMs > REQUESTED_ROOM_TTL_MARGIN_MS)
  }

  ghost predicate Inv(t: Timing, w: World) {
    GoodPromise(w) && GoodRecord(t, w) && GoodReads(t, w) && GoodOutcome(t, w)
  }

  lemma FinishKeeps(t: Timing, w: World, o: Outcome)
    requires Inv(t, w)
    requires o.Resolved? ==> o.status == Running && w.madeReady
    requires o == Rejected(StartError) ==> w.removed && w.madeReady
    requires o == Rejected(Removed) ==> w.removed || t.lateMs > REQUESTED_ROOM_TTL_MARGIN_MS
    ensures Inv(t, Finish(w, o))
  {
    var w' := Finish(w, o);
    forall i | 0 <= i < |w'.lookups| ensures GoodRead(t, w', w'.lookups[i]) { assert GoodRead(t, w, w.lookups[i]); }
  }

  lemma CheckKeeps(t: Timing, w: World, afterReady: bool)
    requires Inv(t, w) && (afterReady ==> w.madeReady)
    ensures Inv(t, Check(w, afterReady))
  {
    var w' := Check(w, afterReady);
    forall i | 0 <= i < |w'.lookups| ensures GoodRead(t, w', w'.lookups[i]) {
      if i < |w.lookups| { assert GoodRead(t, w, w.lookups[i]); }
    }
  }

  /** One read moves on. */
  lemma LookupKeeps(t: Timing, w: World, i: nat, r: Read)
    requires Inv(t, w) && i < |w.lookups| && GoodRead(t, w, r)
    ensures Inv(t, w.(lookups := w.lookups[i := r]))
  {
    var w' := w.(lookups := w.lookups[i := r]);
    forall k | 0 <= k < |w'.lookups| ensures GoodRead(t, w', w'.lookups[k]) { assert GoodRead(t, w, w.lookups[k]); }
  }

  lemma ReadDoneKeeps(t: Timing, w: World, i: nat)
    requires Inv(t, w) && i < |w.lookups| && w.lookups[i].served.Some?
    ensures Inv(t, ReadDone(w, i))
  {
    var r := w.lookups[i];
    var w1 := w.(lookups := w.lookups[i := r.(done := true)]);
    assert GoodRead(t, w, r);
    LookupKeeps(t, w, i, r.(done := true));
    var info := r.served.value;
    if w.settled { return; }
    if info == Some(Running) { FinishKeeps(t, w1, Resolved(Running)); }
    else if info.None? && r.afterReady { FinishKeeps(t, w1, Rejected(StartError)); }
    else if info.None? && r.registeredWhenIssued { FinishKeeps(t, w1, Rejected(Removed)); }
  }

  lemma SubscribedKeeps(t: Timing, w: World)
    requires Inv(t, w) && w.subscription == Pending
    ensures Inv(t, Subscribed(w))
  {
    var w1 := if w.settled then w.(subscription := Released, releases := w.releases + 1) else w.(subscription := Held);
    forall i | 0 <= i < |w1.lookups| ensures GoodRead(t, w1, w1.lookups[i]) { assert GoodRead(t, w, w.lookups[i]); }
    if !w.settled { CheckKeeps(t, w1, false); }
  }

  lemma WaiterKeeps(t: Timing, w: World, e: Event)
    requires Inv(t, w) && Enabled(t, w, e) && ForWaiter(e)
    ensures Inv(t, Step(w, e))
  {
    match e
    case EvRegistered =>
      var w1 := w.(isRegistered := true);
      forall i | 0 <= i < |w1.lookups| ensures GoodRead(t, w1, w1.lookups[i]) { assert GoodRead(t, w, w.lookups[i]); }
      CheckKeeps(t, w1, false);
    case EvRegistrationFailed => FinishKeeps(t, w, Rejected(RegistrationFailed));
    case EvReadDone(i) => ReadDoneKeeps(t, w, i);
    case EvReadFailed(i) =>
      assert GoodRead(t, w, w.lookups[i]);
      LookupKeeps(t, w, i, w.lookups[i].(done := true));
    case EvPoll => CheckKeeps(t, w, false);
    case EvTimeout => FinishKeeps(t, w, Rejected(TimedOut));
    case EvReady => CheckKeeps(t, w, true);
    case EvFailed(reason) => FinishKeeps(t, w, Rejected(Failed(reason)));
    case EvSubscribed => SubscribedKeeps(t, w);
    case EvSubscribeFailed =>
      var w1 := w.(subscription := NotLanded);
      forall i | 0 <= i < |w1.lookups| ensures GoodRead(t, w1, w1.lookups[i]) { assert GoodRead(t, w, w.lookups[i]); }
  }

  lemma DriverKeepsRecord(t: Timing, w: World, e: Event)
    requires Inv(t, w) && Enabled(t, w, e) && !ForWaiter(e)
    ensures GoodRecord(t, Step(w, e))
  {
  }

  lemma DriverKeeps(t: Timing, w: World, e: Event)
    requires Inv(t, w) && Enabled(t, w, e) && !ForWaiter(e)
    ensures Inv(t, Step(w, e))
  {
    var w' := Step(w, e);
    DriverKeepsRecord(t, w, e);
    if e.EvServe? {
      assert GoodRead(t, w, w.lookups[e.i]);
      LookupKeeps(t, w, e.i, w.lookups[e.i].(served := Some(Visible(w))));
    } else {
      forall i | 0 <= i < |w'.lookups| ensures GoodRead(t, w', w'.lookups[i]) { assert GoodRead(t, w, w.lookups[i]); }
    }
  }

  lemma StepKeeps(t: Timing, w: World, e: Event)
    requires Inv(t, w) && Enabled(t, w, e)
    ensures Inv(t, Step(w, e))
  {
    if ForWaiter(e) { WaiterKeeps(t, w, e); } else { DriverKeeps(t, w, e); }
  }

  /** What is settled stays so. */
  lemma StepIsFinal(t: Timing, w: World, e: Event)
    requires Enabled(t, w, e) && w.settled
    ensures Step(w, e).settled && Step(w, e).outcome == w.outcome
  {
    match e
    case EvReadDone(i) => assert ReadDone(w, i).settled && ReadDone(w, i).outcome == w.outcome;
    case EvSubscribed => assert Subscribed(w).settled && Subscribed(w).outcome == w.outcome;
    case _ =>
  }

  ghost predicate Reaches(t: Timing, w: World, es: seq<Event>, w': World)
    decreases |es|
  {
    if es == [] then w == w'
    else Enabled(t, w, es[0]) && Reaches(t, Step(w, es[0]), es[1..], w')
  }

  lemma {:induction false} RunKeeps(t: Timing, w: World, es: seq<Event>, w': World)
    requires Inv(t, w) && Reaches(t, w, es, w')
    ensures Inv(t, w')
    ensures w.settled ==> w'.settled && w'.outcome == w.outcome
    decreases |es|
  {
    if es != [] {
      StepKeeps(t, w, es[0]);
      if w.settled { StepIsFinal(t, w, es[0]); }
      RunKeeps(t, Step(w, es[0]), es[1..], w');
    }
  }

  lemma ReachableInv(t: Timing, t0: int, es: seq<Event>, w: World)
    requires Reaches(t, Init(t0, t.timeoutMs), es, w)
    ensures Inv(t, w)
  {
    assert Inv(t, Init(t0, t.timeoutMs));
    RunKeeps(t, Init(t0, t.timeoutMs), es, w);
  }

  // --- the promises ---

  /** The wait settles at most once and its outcome never changes; the signal
      subscription is released exactly once if it landed and the wait settled,
      in whichever order, and never otherwise. */
  lemma SettlesAndReleasesOnce(t: Timing, t0: int, es: seq<Event>, w: World, later: seq<Event>, w': World)
    requires Reaches(t, Init(t0, t.timeoutMs), es, w) && Reaches(t, w, later, w')
    ensures w.settles == if w.outcome.Some? then 1 else 0
    ensures w.outcome.Some? ==> w'.outcome == w.outcome
    ensures w.releases == if w.settled && w.subscription != Pending && w.subscription != NotLanded then 1 else 0
  {
    ReachableInv(t, t0, es, w);
    RunKeeps(t, w, later, w');
  }

  /** It resolves only with a running record. */
  lemma ResolvesOnlyRunning(t: Timing, t0: int, es: seq<Event>, w: World)
    requires Reaches(t, Init(t0, t.timeoutMs), es, w)
    requires w.outcome.Some? && w.outcome.value.Resolved?
    ensures w.outcome.value.status == Running && w.madeReady
  {
    ReachableInv(t, t0, es, w);
  }

  /** In every run a room reported removed or failed to start really was taken
      away: its record does not merely lapse while the wait is on. */
  ghost predicate SlowIsNeverRemoved(t: Timing) {
    forall t0, es, w :: Reaches(t, Init(t0, t.timeoutMs), es, w) && w.outcome == Some(Rejected(Removed)) ==> w.removed
  }

  /** That is what the margin of createRoom's ttl buys: it holds exactly as long
      as the timeout fires no later than the margin. */
  lemma RemovedMeansRemovedIff(t: Timing)
    ensures SlowIsNeverRemoved(t) <==> t.lateMs <= REQUESTED_ROOM_TTL_MARGIN_MS
  {
    if t.lateMs <= REQUESTED_ROOM_TTL_MARGIN_MS {
      forall t0, es, w | Reaches(t, Init(t0, t.timeoutMs), es, w) && w.outcome == Some(Rejected(Removed))
        ensures w.removed
      {
        ReachableInv(t, t0, es, w);
      }
    } else {
      var es, w := LapsedIsReportedRemoved(t);
      assert Reaches(t, Init(0, t.timeoutMs), es, w);
    }
  }

  /** A run in which the record lapses under a wait whose timeout is too late. */
  lemma LapsedIsReportedRemoved(t: Timing) returns (es: seq<Event>, w: World)
    requires t.lateMs > REQUESTED_ROOM_TTL_MARGIN_MS
    ensures Reaches(t, Init(0, t.timeoutMs), es, w) && w.outcome == Some(Rejected(Removed)) && !w.removed
  {
    var ttlMs := t.timeoutMs + REQUESTED_ROOM_TTL_MARGIN_MS;
    var w0 := Init(0, t.timeoutMs);
    var w1 := Step(w0, EvRegister(ttlMs));
    var w2 := Step(w1, EvRegistered);
    var w3 := Step(w2, EvTime(ttlMs + 1));
    var w4 := Step(w3, EvServe(1));
    w := Step(w4, EvReadDone(1));
    var e5 := [EvReadDone(1)];
    var e4 := [EvServe(1)] + e5;
    var e3 := [EvTime(ttlMs + 1)] + e4;
    var e2 := [EvRegistered] + e3;
    es := [EvRegister(ttlMs)] + e2;
    assert Reaches(t, w, [], w) && e5[1..] == [];
    assert Reaches(t, w4, e5, w) && e4[1..] == e5;
    assert Reaches(t, w3, e4, w) && e3[1..] == e4;
    assert Reaches(t, w2, e3, w) && e2[1..] == e3;
    assert Reaches(t, w1, e2, w) && es[1..] == e2;
  }

  /** A start error always means that the record of a ready room was taken away. */
  lemma StartErrorMeansRemoved(t: Timing, t0: int, es: seq<Event>, w: World)
    requires Reaches(t, Init(t0, t.timeoutMs), es, w) && w.outcome == Some(Rejected(StartError))
    ensures w.removed && w.madeReady
  {
    ReachableInv(t, t0, es, w);
  }

  // --- what a failed createRoom leaves ---

  /** Nobody writes the record again. */
  predicate NotReasserted(es: seq<Event>) { forall i :: 0 <= i < |es| ==> !es[i].EvReassert? }

  lemma {:induction false} AbsentStays(t: Timing, w: World, es: seq<Event>, w': World)
    requires Inv(t, w) && Reaches(t, w, es, w') && w.registered && w.record == Absent && NotReasserted(es)
    ensures w'.record == Absent
    decreases |es|
  {
    if es != [] {
      StepKeeps(t, w, es[0]);
      if !es[0].EvMakeReady? { StaysRequested(t, w, es[0]); }
      AbsentStays(t, Step(w, es[0]), es[1..], w');
    }
  }

  /** When a failed createRoom has unregistered the room, there is no record of
      it, and none comes back unless a reaped server asserts the room again. */
  lemma FailedCreateLeavesNothing(t: Timing, t0: int, es: seq<Event>, w: World, later: seq<Event>, w': World)
    requires Reaches(t, Init(t0, t.timeoutMs), es, w) && Enabled(t, w, EvCleanUp)
    requires Reaches(t, Step(w, EvCleanUp), later, w')
    ensures w'.record.Present? ==> !NotReasserted(later)
    ensures w'.outcome == w.outcome && w.outcome.Some? && w.outcome.value.Rejected?
  {
    ReachableInv(t, t0, es, w);
    StepKeeps(t, w, EvCleanUp);
    RunKeeps(t, Step(w, EvCleanUp), later, w');
    if NotReasserted(later) { AbsentStays(t, Step(w, EvCleanUp), later, w'); }
  }

  predicate NotMadeReady(es: seq<Event>) { forall i :: 0 <= i < |es| ==> !es[i].EvMakeReady? }

  lemma WaiterSparesRecord(t: Timing, w: World, e: Event)
    requires Enabled(t, w, e) && ForWaiter(e)
    ensures Step(w, e).record == w.record && Step(w, e).registered == w.registered
  {
    match e
    case EvReadDone(i) => assert ReadDone(w, i).record == w.record && ReadDone(w, i).registered == w.registered;
    case EvSubscribed => assert Subscribed(w).record == w.record && Subscribed(w).registered == w.registered;
    case _ =>
  }

  lemma StaysRequested(t: Timing, w: World, e: Event)
    requires Enabled(t, w, e) && w.registered && !e.EvReassert? && !e.EvMakeReady?
    ensures Step(w, e).record == w.record || Step(w, e).record == Absent
    ensures Step(w, e).registered
  {
    if ForWaiter(e) { WaiterSparesRecord(t, w, e); }
  }

  lemma {:induction false} RequestedLapses(t: Timing, w: World, es: seq<Event>, w': World)
    requires Reaches(t, w, es, w') && w.registered && NotReasserted(es) && NotMadeReady(es)
    requires w.record.Present? ==> w.record.status == Requested
    ensures w'.record == w.record || w'.record == Absent
    decreases |es|
  {
    if es != [] {
      StaysRequested(t, w, es[0]);
      RequestedLapses(t, Step(w, es[0]), es[1..], w');
    }
  }

  /** When that unregister fails, which createRoom swallows, a record that was
      still only requested and is never made ready disappears with its ttl. */
  lemma FailedCleanUpLapses(t: Timing, t0: int, es: seq<Event>, w: World, later: seq<Event>, w': World)
    requires Reaches(t, Init(t0, t.timeoutMs), es, w) && Enabled(t, w, EvCleanUpFailed)
    requires Reaches(t, Step(w, EvCleanUpFailed), later, w') && NotReasserted(later) && NotMadeReady(later)
    requires w.record.Present? ==> w.record.status == Requested && w.record.expiresAt < w'.now
    ensures Visible(w') == None
  {
    ReachableInv(t, t0, es, w);
    RequestedLapses(t, Step(w, EvCleanUpFailed), later, w');
  }

  // --- which read decides ---

  /** "Record removed" comes from a read that missed and had been issued after
      the registration was known; "start error" from a miss after a ready signal. */
  lemma OnlyALateMissRemoves(t: Timing, w: World, e: Event)
    requires Enabled(t, w, e) && !w.settled && Step(w, e).settled
    ensures Step(w, e).outcome == Some(Rejected(Removed)) <==>
      e.EvReadDone? && w.lookups[e.i].served == Some(None) && w.lookups[e.i].registeredWhenIssued
        && !w.lookups[e.i].afterReady
    ensures Step(w, e).outcome == Some(Rejected(StartError)) <==>
      e.EvReadDone? && w.lookups[e.i].served == Some(None) && w.lookups[e.i].afterReady
    ensures Step(w, e).outcome == Some(Resolved(Running)) <==>
      e.EvReadDone? && w.lookups[e.i].served == Some(Some(Running))
  {
    if e.EvReadDone? { ReadDecides(w, e.i); } else { NoReadNoVerdict(t, w, e); }
  }

  lemma ReadDecides(w: World, i: nat)
    requires i < |w.lookups| && w.lookups[i].served.Some? && !w.settled && ReadDone(w, i).settled
    ensures var r := w.lookups[i];
      ReadDone(w, i).outcome ==
        if r.served == Some(Some(Running)) then Some(Resolved(Running))
        else if r.afterReady then Some(Rejected(StartError))
        else Some(Rejected(Removed))
    ensures var r := w.lookups[i];
      r.served == Some(Some(Running)) || (r.served == Some(None) && (r.afterReady || r.registeredWhenIssued))
  {
  }

  lemma NoReadNoVerdict(t: Timing, w: World, e: Event)
    requires Enabled(t, w, e) && !e.EvReadDone? && !w.settled && Step(w, e).settled
    ensures var o := Step(w, e).outcome;
      o != Some(Rejected(Removed)) && o != Some(Rejected(StartError)) && o != Some(Resolved(Running))
  {
    assert e.EvRegistrationFailed? || e.EvTimeout? || e.EvFailed?;
  }

  // --- in place ---

  class Waiter {
    var settled: bool
    var isRegistered: bool
    var subscription: Subscription
    var lookups: seq<Read>
    ghost var outcome: Option<Outcome>
    ghost var settles: nat
    ghost var releases: nat

    /** The waiter's part of the world, the driver's part being d. */
    ghost function View(d: World): World
      reads this
    {
      d.(settled := settled, isRegistered := isRegistered, subscription := subscription, lookups := lookups,
         outcome := outcome, settles := settles, releases := releases)
    }

    constructor ()
      ensures forall now: int, timeoutMs: nat {:trigger Init(now, timeoutMs)} ::
        View(Init(now, timeoutMs)) == Init(now, timeoutMs)
    {
      settled, isRegistered, subscription := false, false, Pending;
      lookups := [Read(false, false, None, false)];
      outcome, settles, releases := None, 0, 0;
    }

    method Settle(o: Outcome, ghost d: World)
      modifies this
      ensures View(d) == Finish(old(View(d)), o)
    {
      if settled { return; }
      settled := true;
      if subscription == Held {
        subscription := Released;
        releases := releases + 1;
      }
      outcome := Some(o);
      settles := settles + 1;
    }

    method IssueCheck(afterReady: bool, ghost d: World)
      modifies this
      ensures View(d) == Check(old(View(d)), afterReady)
    {
      lookups := lookups + [Read(afterReady, isRegistered, None, false)];
    }

    method OnRead(i: nat, ghost d: World)
      requires i < |lookups| && lookups[i].served.Some?
      modifies this
      ensures View(d) == ReadDone(old(View(d)), i)
    {
      var r := lookups[i];
      var info := r.served.value;
      lookups := lookups[i := r.(done := true)];
      if settled { return; }
      if info == Some(Running) {
        Settle(Resolved(Running), d);
      } else if info.None? && r.afterReady {
        Settle(Rejected(StartError), d);
      } else if info.None? && r.registeredWhenIssued {
        Settle(Rejected(Removed), d);
      }
    }

    method OnSubscribed(ghost d: World)
      modifies this
      ensures View(d) == Subscribed(old(View(d)))
    {
      if settled {
        subscription := Released;
        releases := releases + 1;
        return;
      }
      subscription := Held;
      IssueCheck(false, d);
    }

    /** Whatever the waiter reacts to: exactly the specified step, the invariant
        kept, and a settled wait never settles again. */
    method Handle(t: Timing, e: Event, ghost d: World)
      requires Inv(t, View(d)) && Enabled(t, View(d), e) && ForWaiter(e)
      modifies this
      ensures View(d) == Step(old(View(d)), e) && Inv(t, View(d))
      ensures old(settled) ==> settled && outcome == old(outcome)
    {
      ghost var before := View(d);
      WaiterKeeps(t, before, e);
      if before.settled { StepIsFinal(t, before, e); }
      match e
      case EvRegistered => isRegistered := true; IssueCheck(false, d);
      case EvRegistrationFailed => Settle(Rejected(RegistrationFailed), d);
      case EvReadDone(i) => OnRead(i, d);
      case EvReadFailed(i) => lookups := lookups[i := lookups[i].(done := true)];
      case EvPoll => IssueCheck(false, d);
      case EvTimeout => Settle(Rejected(TimedOut), d);
      case EvReady => IssueCheck(true, d);
      case EvFailed(reason) => Settle(Rejected(Failed(reason)), d);
      case EvSubscribed => OnSubscribed(d);
      case EvSubscribeFailed => subscription := NotLanded;
    }
  }
}
