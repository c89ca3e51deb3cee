/** The self-pacing loop (src/common/punctuate.ts): which run is authoritative,
    and how far apart runs start. */
module Punctuate {
  import opened Prelude

  /** One call of `run`: the epoch it captured and when it started. */
  datatype Run = Run(epoch: nat, startedAt: int)

  /** `active` says that the newest run's tick is still awaiting it; `dueAt` is
      the pending timer. Older runs may still execute: nothing cancels them. */
  datatype World = World(
    stopped: bool,
    epoch: nat,
    dueAt: Option<int>,
    active: bool,
    runs: seq<Run>,
    now: int)

  datatype Config = Config(intervalMs: nat, timeoutMs: nat)

  function Init(now: int): World { World(false, 0, Some(now), false, [], now) }

  /** The predicate handed to run i. */
  predicate IsCurrent(w: World, i: nat)
    requires i < |w.runs|
  {
    !w.stopped && w.epoch == w.runs[i].epoch
  }

  function Last(w: World): Run
    requires w.runs != []
  {
    w.runs[|w.runs| - 1]
  }

  function Max(a: int, b: int): int { if a < b then b else a }

  function TickStart(w: World): World {
    if w.stopped then w.(dueAt := None)
    else w.(dueAt := None, active := true, runs := w.runs + [Run(w.epoch, w.now)])
  }

  /** The epoch moves on, unless it already has. */
  function Retire(w: World): World
    requires w.runs != []
  {
    if w.epoch == Last(w).epoch then w.(epoch := w.epoch + 1) else w
  }

  /** The rest of `tick` once the race has settled, at time w.now. */
  function Settle(cfg: Config, w: World): World
    requires w.runs != []
  {
    if w.stopped then w.(active := false)
    else
      var elapsed := w.now - Last(w).startedAt;
      Retire(w).(active := false, dueAt := Some(w.now + Max(0, cfg.intervalMs - elapsed)))
  }

  function Timeout(cfg: Config, w: World): World
    requires w.runs != []
  {
    Settle(cfg, Retire(w))
  }

  function Stop(w: World): World {
    w.(stopped := true, epoch := w.epoch + 1, dueAt := None)
  }

  datatype Event = EvTick | EvSettled | EvTimeout | EvStop | EvTime(now: int)

  /** Timers are exact: time never passes a due tick or a run's timeout. A run
      settles at any moment before its timeout; later its result is ignored. */
  predicate Enabled(cfg: Config, w: World, e: Event) {
    match e
    case EvTick => w.dueAt == Some(w.now)
    case EvSettled => w.active && w.runs != []
    case EvTimeout => w.active && w.runs != [] && w.now == Last(w).startedAt + cfg.timeoutMs
    case EvStop => true
    case EvTime(now) =>
      w.now <= now && (w.dueAt.Some? ==> now <= w.dueAt.value)
      && (w.active && w.runs != [] ==> now <= Last(w).startedAt + cfg.timeoutMs)
  }

  function Step(cfg: Config, w: World, e: Event): World
    requires Enabled(cfg, w, e)
  {
    match e
    case EvTick => TickStart(w)
    case EvSettled => Settle(cfg, w)
    case EvTimeout => Timeout(cfg, w)
    case EvStop => Stop(w)
    case EvTime(now) => w.(now := now)
  }

  ghost predicate Spaced(cfg: Config, a: int, b: int) {
    cfg.intervalMs <= b - a <= Max(cfg.intervalMs, cfg.timeoutMs)
  }

  /** Every run but a live active one has been overtaken by the epoch. */
  ghost predicate GoodEpoch(w: World, i: nat)
    requires i < |w.runs|
  {
    if i == |w.runs| - 1 && w.active && !w.stopped then w.runs[i].epoch == w.epoch else w.runs[i].epoch < w.epoch
  }

  ghost predicate Increasing(runs: seq<Run>) {
    forall i, j :: 0 <= i < j < |runs| ==> runs[i].epoch < runs[j].epoch
  }

  ghost predicate AllSpaced(cfg: Config, runs: seq<Run>) {
    forall i {:trigger runs[i]} :: 0 <= i < |runs| - 1 ==> Spaced(cfg, runs[i].startedAt, runs[i + 1].startedAt)
  }

  ghost predicate Inv(cfg: Config, w: World) {
    && (w.runs == [] ==> !w.active)
    && (w.stopped ==> w.dueAt.None?)
    && !(w.active && w.dueAt.Some?)
    && (forall i {:trigger GoodEpoch(w, i)} :: 0 <= i < |w.runs| ==> GoodEpoch(w, i))
    && Increasing(w.runs)
    && AllSpaced(cfg, w.runs)
    && (w.runs != [] ==> Last(w).startedAt <= w.now)
    && (w.active ==> w.now <= Last(w).startedAt + cfg.timeoutMs)
    && (w.runs != [] && w.dueAt.Some? ==> Spaced(cfg, Last(w).startedAt, w.dueAt.value))
  }

  lemma TickKeeps(cfg: Config, w: World, w': World)
    requires Inv(cfg, w) && w.dueAt == Some(w.now) && w' == TickStart(w)
    ensures Inv(cfg, w') && w.runs <= w'.runs
  {
    var n := |w.runs|;
    forall i | 0 <= i < |w'.runs| ensures GoodEpoch(w', i) {
      if i < n { assert GoodEpoch(w, i) && w'.runs[i] == w.runs[i]; }
    }
    forall i, j | 0 <= i < j < |w'.runs| ensures w'.runs[i].epoch < w'.runs[j].epoch {
      if j == n { assert GoodEpoch(w, i); }
    }
    forall i | 0 <= i < |w'.runs| - 1 ensures Spaced(cfg, w'.runs[i].startedAt, w'.runs[i + 1].startedAt) {
      if i == n - 1 { assert w'.runs[i] == Last(w); }
    }
  }

  lemma SettleKeeps(cfg: Config, w: World, w': World)
    requires Inv(cfg, w) && w.active && w' == Settle(cfg, w)
    ensures Inv(cfg, w') && w'.runs == w.runs
  {
    forall i | 0 <= i < |w'.runs| ensures GoodEpoch(w', i) { assert GoodEpoch(w, i); }
  }

  /** A timeout retires the epoch once, whatever comes after it in the tick. */
  lemma TimeoutIsSettle(cfg: Config, w: World)
    requires Inv(cfg, w) && w.active
    ensures Timeout(cfg, w) == Settle(cfg, w)
  {
    assert GoodEpoch(w, |w.runs| - 1);
  }

  lemma StopKeeps(cfg: Config, w: World, w': World)
    requires Inv(cfg, w) && w' == Stop(w)
    ensures Inv(cfg, w') && w'.runs == w.runs
  {
    forall i | 0 <= i < |w'.runs| ensures GoodEpoch(w', i) { assert GoodEpoch(w, i); }
  }

  lemma TimeKeeps(cfg: Config, w: World, w': World, now: int)
    requires Inv(cfg, w) && Enabled(cfg, w, EvTime(now)) && w' == w.(now := now)
    ensures Inv(cfg, w') && w'.runs == w.runs
  {
    forall i | 0 <= i < |w'.runs| ensures GoodEpoch(w', i) { assert GoodEpoch(w, i); }
  }

  lemma StepKeeps(cfg: Config, w: World, e: Event)
    requires Inv(cfg, w) && Enabled(cfg, w, e)
    ensures Inv(cfg, Step(cfg, w, e))
    ensures w.runs <= Step(cfg, w, e).runs
  {
    match e
    case EvTick => TickKeeps(cfg, w, TickStart(w));
    case EvSettled => SettleKeeps(cfg, w, Settle(cfg, w));
    case EvTimeout => TimeoutIsSettle(cfg, w); SettleKeeps(cfg, w, Settle(cfg, w));
    case EvStop => StopKeeps(cfg, w, Stop(w));
    case EvTime(now) => TimeKeeps(cfg, w, w.(now := now), now);
  }

  ghost predicate Reaches(cfg: Config, w: World, es: seq<Event>, w': World)
    decreases |es|
  {
    if es == [] then w == w'
    else Enabled(cfg, w, es[0]) && Reaches(cfg, Step(cfg, w, es[0]), es[1..], w')
  }

  lemma {:induction false} RunKeeps(cfg: Config, w: World, es: seq<Event>, w': World)
    requires Inv(cfg, w) && Reaches(cfg, w, es, w')
    ensures Inv(cfg, w') && w.runs <= w'.runs
    decreases |es|
  {
    if es != [] {
      StepKeeps(cfg, w, es[0]);
      RunKeeps(cfg, Step(cfg, w, es[0]), es[1..], w');
    }
  }

  /** In every interleaving at most one run is current, and it is the newest,
      whose tick still awaits it. */
  lemma AtMostOneCurrent(cfg: Config, t0: int, es: seq<Event>, w: World, i: nat)
    requires Reaches(cfg, Init(t0), es, w) && i < |w.runs|
    ensures IsCurrent(w, i) <==> i == |w.runs| - 1 && w.active && !w.stopped
  {
    RunKeeps(cfg, Init(t0), es, w);
    assert GoodEpoch(w, i);
  }

  /** A run that has lost currency never regains it. */
  lemma {:induction false} CurrencyIsNeverRegained(cfg: Config, w: World, es: seq<Event>, w': World, i: nat)
    requires Inv(cfg, w) && Reaches(cfg, w, es, w') && i < |w.runs| && !IsCurrent(w, i)
    ensures i < |w'.runs| && !IsCurrent(w', i)
    decreases |es|
  {
    if es != [] {
      var w1 := Step(cfg, w, es[0]);
      StepKeeps(cfg, w, es[0]);
      assert GoodEpoch(w, i) && GoodEpoch(w1, i) && w1.runs[i] == w.runs[i];
      CurrencyIsNeverRegained(cfg, w1, es[1..], w', i);
    }
  }

  /** Epochs of successive runs strictly increase, and with exact timers runs
      start at least the interval and at most the larger of interval and timeout apart. */
  lemma RunsAreSpaced(cfg: Config, t0: int, es: seq<Event>, w: World, i: nat)
    requires Reaches(cfg, Init(t0), es, w) && i + 1 < |w.runs|
    ensures w.runs[i].epoch < w.runs[i + 1].epoch
    ensures cfg.intervalMs <= w.runs[i + 1].startedAt - w.runs[i].startedAt <= Max(cfg.intervalMs, cfg.timeoutMs)
  {
    RunKeeps(cfg, Init(t0), es, w);
    assert Spaced(cfg, w.runs[i].startedAt, w.runs[i + 1].startedAt);
  }

  /** The loop goes on until it is stopped: always either a run is awaited or the
      next tick is due, never both; it is due one interval after the last run's
      start, or at once if that has passed; a tick that is due starts a run then. */
  lemma LoopGoesOn(cfg: Config, t0: int, es: seq<Event>, w: World)
    requires Reaches(cfg, Init(t0), es, w)
    ensures !w.stopped ==> (w.active <==> w.dueAt.None?)
    ensures w.stopped ==> w.dueAt.None?
    ensures Enabled(cfg, w, EvTick) ==>
      !w.stopped && Step(cfg, w, EvTick).active && Step(cfg, w, EvTick).runs == w.runs + [Run(w.epoch, w.now)]
    ensures forall e :: (e == EvSettled || e == EvTimeout) && Enabled(cfg, w, e) && !w.stopped ==>
      Step(cfg, w, e).dueAt == Some(Max(w.now, Last(w).startedAt + cfg.intervalMs))
  {
    RunKeeps(cfg, Init(t0), es, w);
    RunGoesOn(cfg, Init(t0), es, w);
    if w.active && w.runs != [] { TimeoutIsSettle(cfg, w); }
  }

  lemma {:induction false} RunGoesOn(cfg: Config, w: World, es: seq<Event>, w': World)
    requires Inv(cfg, w) && Reaches(cfg, w, es, w') && (!w.stopped ==> w.active || w.dueAt.Some?)
    ensures !w'.stopped ==> w'.active || w'.dueAt.Some?
    decreases |es|
  {
    if es != [] {
      StepKeeps(cfg, w, es[0]);
      RunGoesOn(cfg, Step(cfg, w, es[0]), es[1..], w');
    }
  }

  class Punctuator {
    const cfg: Config
    var stopped: bool
    var epoch: nat
    var dueAt: Option<int>
    var active: bool
    ghost var runs: seq<Run>
    var startedAt: int
    var myEpoch: nat

    ghost function View(now: int): World
      reads this
    {
      World(stopped, epoch, dueAt, active, runs, now)
    }

    /** The running tick's locals are those of the newest run. */
    ghost predicate Valid()
      reads this
    {
      active ==> runs != [] && runs[|runs| - 1] == Run(myEpoch, startedAt)
    }

    constructor (cfg: Config, now: int)
      ensures this.cfg == cfg && View(now) == Init(now) && Valid()
    {
      this.cfg := cfg;
      stopped, epoch, dueAt, active := false, 0, Some(now), false;
      runs, startedAt, myEpoch := [], now, 0;
    }

    method OnTimer(now: int)
      modifies this
      requires Valid() && !active
      ensures View(now) == TickStart(old(View(now))) && Valid()
    {
      dueAt := None;
      if stopped { return; }
      startedAt := now;
      myEpoch := epoch;
      active := true;
      runs := runs + [Run(myEpoch, startedAt)];
    }

    method OnSettled(now: int)
      requires Valid() && active
      modifies this
      ensures View(now) == Settle(cfg, old(View(now))) && Valid()
    {
      active := false;
      if stopped { return; }
      var elapsed := now - startedAt;
      var delay := Max(0, cfg.intervalMs - elapsed);
      if epoch == myEpoch { epoch := epoch + 1; }
      dueAt := Some(now + delay);
    }

    method OnTimeout(now: int)
      requires Valid() && active
      modifies this
      ensures View(now) == Timeout(cfg, old(View(now))) && Valid()
    {
      if epoch == myEpoch { epoch := epoch + 1; }
      OnSettled(now);
    }

    method HandleStop(now: int)
      requires Valid()
      modifies this
      ensures View(now) == Stop(old(View(now))) && Valid()
    {
      stopped := true;
      epoch := epoch + 1;
      dueAt := None;
    }

    /** Whatever happens next, the loop takes exactly the specified step and keeps
        the invariant. The clock is the caller's. */
    method Handle(e: Event, now: int)
      requires Valid() && Inv(cfg, View(now)) && Enabled(cfg, View(now), e) && !e.EvTime?
      modifies this
      ensures View(now) == Step(cfg, old(View(now)), e) && Valid() && Inv(cfg, View(now))
    {
      StepKeeps(cfg, View(now), e);
      match e
      case EvTick => OnTimer(now);
      case EvSettled => OnSettled(now);
      case EvTimeout => OnTimeout(now);
      case EvStop => HandleStop(now);
    }
  }
}
