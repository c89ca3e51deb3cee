/** The subscriber canary (src/driver/subscriber-canary.ts): it must never blame
    a subscriber that is not at fault, and must notice a deaf one in time. */
module Canary {
  import opened Prelude

  const CANARY_INTERVAL_MS := 5_000
  const CANARY_TIMEOUT_MS := 10_000
  const CANARY_CHECK_MS := 1_000
  const CANARY_DETECTION_BOUND_MS := CANARY_INTERVAL_MS + CANARY_TIMEOUT_MS + CANARY_CHECK_MS

  /** Tokens are the numbers 1, 2, ... of the source's `sequence`. */
  datatype Outstanding = Outstanding(token: nat, publishedAt: Option<int>)

  datatype Miss = Miss(token: nat, missedMs: int, at: int)

  /** The fields from `received` on are history: tokens that arrived, when each
      PUBLISH resolved, the newest token that had been sent when the subscriber
      was last seen unready, and the calls of reconnect. `lastSentAt` is None
      for the source's negative infinity. */
  datatype World = World(
    sequence: nat,
    lastSentAt: Option<int>,
    outstanding: Option<Outstanding>,
    received: set<nat>,
    resolved: map<nat, int>,
    unreadyUpTo: nat,
    misses: seq<Miss>)

  const Init := World(0, None, None, {}, map[], 0, [])

  function Received(w: World, token: nat): World {
    w.(outstanding := if w.outstanding.Some? && w.outstanding.value.token == token then None else w.outstanding,
       received := w.received + {token})
  }

  function Resolved(w: World, token: nat, at: int): World {
    w.(outstanding := if w.outstanding.Some? && w.outstanding.value.token == token
                      then Some(Outstanding(token, Some(at))) else w.outstanding,
       resolved := w.resolved[token := at])
  }

  function Failed(w: World, token: nat): World {
    w.(outstanding := if w.outstanding.Some? && w.outstanding.value.token == token then None else w.outstanding)
  }

  predicate Missed(w: World, at: int) {
    w.outstanding.Some? && w.outstanding.value.publishedAt.Some?
    && at - w.outstanding.value.publishedAt.value > CANARY_TIMEOUT_MS
  }

  function Tick(w: World, at: int, ready: bool): World {
    if !ready then w.(outstanding := None, unreadyUpTo := w.sequence)
    else if w.outstanding.Some? then
      if Missed(w, at) then
        w.(outstanding := None,
           misses := w.misses + [Miss(w.outstanding.value.token, at - w.outstanding.value.publishedAt.value, at)])
      else w
    else if w.lastSentAt.Some? && at - w.lastSentAt.value < CANARY_INTERVAL_MS then w
    else
      w.(sequence := w.sequence + 1, lastSentAt := Some(at), outstanding := Some(Outstanding(w.sequence + 1, None)))
  }

  // --- never blames the wrong one ---

  datatype Event =
    | EvReceived(token: nat)
    | EvResolved(token: nat, at: int)
    | EvFailed(token: nat)
    | EvTick(at: int, ready: bool)

  /** Only tokens that were sent arrive, and each PUBLISH settles once. */
  predicate Enabled(w: World, e: Event) {
    match e
    case EvReceived(token) => 1 <= token <= w.sequence
    case EvResolved(token, _) => 1 <= token <= w.sequence && token !in w.resolved
    case EvFailed(token) => 1 <= token <= w.sequence && token !in w.resolved
    case EvTick(_, _) => true
  }

  function Step(w: World, e: Event): World {
    match e
    case EvReceived(token) => Received(w, token)
    case EvResolved(token, at) => Resolved(w, token, at)
    case EvFailed(token) => Failed(w, token)
    case EvTick(at, ready) => Tick(w, at, ready)
  }

  /** The outstanding token is the last one sent, has not arrived, was sent
      after the last unready tick, and knows when its PUBLISH resolved. */
  ghost predicate Inv(w: World) {
    && w.unreadyUpTo <= w.sequence
    && (forall t :: t in w.received || t in w.resolved ==> 1 <= t <= w.sequence)
    && (w.outstanding.Some? ==>
          var o := w.outstanding.value;
          && o.token == w.sequence > w.unreadyUpTo
          && o.token !in w.received
          && o.publishedAt == if o.token in w.resolved then Some(w.resolved[o.token]) else None)
  }

  lemma StepKeeps(w: World, e: Event)
    requires Inv(w) && Enabled(w, e)
    ensures Inv(Step(w, e))
  {
  }

  ghost predicate Reaches(w: World, es: seq<Event>, w': World)
    decreases |es|
  {
    if es == [] then w == w'
    else Enabled(w, es[0]) && Reaches(Step(w, es[0]), es[1..], w')
  }

  lemma {:induction false} RunKeeps(w: World, es: seq<Event>, w': World)
    requires Inv(w) && Reaches(w, es, w')
    ensures Inv(w')
    decreases |es|
  {
    if es != [] {
      StepKeeps(w, es[0]);
      RunKeeps(Step(w, es[0]), es[1..], w');
    }
  }

  /** In every run, reconnect is called only for a token whose PUBLISH resolved
      more than the timeout ago, that never arrived, with the subscriber ready at
      every tick since it was sent. */
  lemma ReconnectIsJustified(es: seq<Event>, w: World, at: int, ready: bool)
    requires Reaches(Init, es, w) && |Tick(w, at, ready).misses| > |w.misses|
    ensures ready && |Tick(w, at, ready).misses| == |w.misses| + 1
    ensures var m := Tick(w, at, ready).misses[|w.misses|];
      && m.token in w.resolved && m.missedMs == at - w.resolved[m.token] > CANARY_TIMEOUT_MS
      && m.token !in w.received
      && m.token > w.unreadyUpTo
      && m.at == at
  {
    RunKeeps(Init, es, w);
  }

  /** The token out is settled by its arrival, a publish that failed, an unready
      tick or a miss, and by nothing else; a tick with none out sends the next one
      iff the subscriber is ready and the interval has passed. */
  lemma TokenSettlesIff(es: seq<Event>, w: World, e: Event)
    requires Reaches(Init, es, w) && Enabled(w, e)
    ensures w.outstanding.Some? ==>
      (Step(w, e).outstanding.None? <==>
        match e
        case EvReceived(token) => token == w.sequence
        case EvFailed(token) => token == w.sequence
        case EvResolved(_, _) => false
        case EvTick(at, ready) => !ready || Overdue(w, at))
    ensures w.outstanding.None? ==>
      (Step(w, e).outstanding.Some? <==> e.EvTick? && e.ready && IntervalIsOver(w, e.at))
    ensures w.outstanding.None? && Step(w, e).outstanding.Some? ==>
      Step(w, e).outstanding == Some(Outstanding(w.sequence + 1, None)) && Step(w, e).sequence == w.sequence + 1
    ensures |Step(w, e).misses| > |w.misses| <==> w.outstanding.Some? && e.EvTick? && e.ready && Overdue(w, e.at)
  {
    RunKeeps(Init, es, w);
  }

  /** The newest token's PUBLISH resolved too long ago. */
  predicate Overdue(w: World, at: int) {
    w.sequence in w.resolved && at - w.resolved[w.sequence] > CANARY_TIMEOUT_MS
  }

  predicate IntervalIsOver(w: World, at: int) {
    w.lastSentAt.Some? ==> at - w.lastSentAt.value >= CANARY_INTERVAL_MS
  }

  // --- notices in time ---

  /** A tick of a ready subscriber whose publishes resolve at once. */
  function PromptTick(w: World, at: int): World {
    var w1 := Tick(w, at, true);
    if w1.sequence > w.sequence then Resolved(w1, w1.sequence, at) else w1
  }

  /** Between two ticks, some tokens arrive. */
  function Arrivals(w: World, tokens: seq<nat>): World {
    if tokens == [] then w else Received(Arrivals(w, tokens[..|tokens| - 1]), tokens[|tokens| - 1])
  }

  /** The k-th tick after the one at t; ticks are CANARY_CHECK_MS apart. */
  function TickAt(t: int, k: nat): int { t + 1_000 * k }

  /** Ticks at t0, t0 + 1000, ..., each followed by the arrivals of its round. */
  function Hearing(t0: int, rounds: seq<seq<nat>>): World {
    if rounds == [] then Init
    else
      var n := |rounds| - 1;
      Arrivals(PromptTick(Hearing(t0, rounds[..n]), TickAt(t0, n)), rounds[n])
  }

  /** k further ticks during which nothing arrives. */
  function Deaf(w: World, t: int, k: nat): World {
    if k == 0 then w else PromptTick(Deaf(w, t, k - 1), TickAt(t, k))
  }

  /** After the tick at t: the last token was sent j ticks ago, and if it is
      outstanding it is not overdue. */
  ghost predicate Steady(w: World, t: int, j: nat) {
    && w.lastSentAt == Some(t - 1_000 * j)
    && (w.outstanding.Some? ==> w.outstanding.value.publishedAt == w.lastSentAt && j <= 10)
  }

  lemma {:induction false} ArrivalsSteady(w: World, t: int, j: nat, tokens: seq<nat>)
    requires Steady(w, t, j)
    ensures Steady(Arrivals(w, tokens), t, j)
    decreases |tokens|
  {
    if tokens != [] { ArrivalsSteady(w, t, j, tokens[..|tokens| - 1]); }
  }

  /** How one prompt tick moves a steady canary on. */
  function NextAge(w: World, j: nat): nat {
    if w.outstanding.None? && j >= 4 then 0 else j + 1
  }

  lemma PromptTickSteady(w: World, t: int, j: nat)
    requires Steady(w, t, j)
    ensures Steady(PromptTick(w, TickAt(t, 1)), TickAt(t, 1), NextAge(w, j))
    ensures |PromptTick(w, TickAt(t, 1)).misses| == |w.misses| + if w.outstanding.Some? && j == 10 then 1 else 0
    ensures PromptTick(w, TickAt(t, 1)).outstanding.Some? <==> if w.outstanding.Some? then j < 10 else j >= 4
  {
  }

  lemma {:induction false} HearingSteady(t0: int, rounds: seq<seq<nat>>) returns (j: nat)
    requires rounds != []
    ensures Steady(Hearing(t0, rounds), TickAt(t0, |rounds| - 1), j)
    decreases |rounds|
  {
    var n := |rounds| - 1;
    var before := Hearing(t0, rounds[..n]);
    j := 0;
    if n > 0 {
      j := HearingSteady(t0, rounds[..n]);
      PromptTickSteady(before, TickAt(t0, n - 1), j);
      j := NextAge(before, j);
    }
    ArrivalsSteady(PromptTick(before, TickAt(t0, n)), TickAt(t0, n), j, rounds[n]);
  }

  /** Calls of reconnect up to the k-th deaf tick. */
  function MissCount(w: World, t: int, k: nat): nat {
    |Deaf(w, t, k).misses|
  }

  /** The k-th deaf tick calls reconnect. */
  ghost predicate Noticed(w: World, t: int, k: nat) {
    k > 0 && MissCount(w, t, k) > MissCount(w, t, k - 1)
  }

  /** A later start of the same deaf run. */
  lemma {:induction false} DeafLater(w: World, t: int, k: nat)
    ensures Deaf(PromptTick(w, TickAt(t, 1)), TickAt(t, 1), k) == Deaf(w, t, k + 1)
    decreases k
  {
    if k > 0 {
      DeafLater(w, t, k - 1);
    } else {
      assert Deaf(w, t, 0) == w;
    }
  }

  lemma MissCountLater(w: World, t: int, k: nat)
    ensures MissCount(PromptTick(w, TickAt(t, 1)), TickAt(t, 1), k) == MissCount(w, t, k + 1)
  {
    DeafLater(w, t, k);
  }

  lemma NoticedLater(w: World, t: int, k: nat)
    requires Noticed(PromptTick(w, TickAt(t, 1)), TickAt(t, 1), k)
    ensures Noticed(w, t, k + 1)
  {
    MissCountLater(w, t, k);
    MissCountLater(w, t, k - 1);
  }

  /** How many ticks a deaf subscriber goes unnoticed. */
  function TicksToNotice(w: World, j: nat): nat
    requires w.outstanding.Some? ==> j <= 10
  {
    if w.outstanding.Some? then 11 - j else if j >= 4 then 12 else 16 - j
  }

  lemma {:induction false} DeafIsNoticed(w: World, t: int, j: nat)
    requires Steady(w, t, j)
    ensures Noticed(w, t, TicksToNotice(w, j))
    decreases TicksToNotice(w, j)
  {
    PromptTickSteady(w, t, j);
    if w.outstanding.Some? && j == 10 {
      assert Deaf(w, t, 0) == w;
    } else {
      DeafIsNoticed(PromptTick(w, TickAt(t, 1)), TickAt(t, 1), NextAge(w, j));
      NoticedLater(w, t, TicksToNotice(w, j) - 1);
    }
  }

  /** With a tick every CANARY_CHECK_MS, a ready subscriber and publishes that
      resolve at once: whenever after the first tick the subscriber goes deaf,
      reconnect is called within CANARY_DETECTION_BOUND_MS. */
  lemma DeafnessIsNoticed(t0: int, rounds: seq<seq<nat>>, deafAt: int)
    requires rounds != []
    requires var t := TickAt(t0, |rounds| - 1); t <= deafAt < t + CANARY_CHECK_MS
    ensures var t := TickAt(t0, |rounds| - 1);
      exists k: nat :: Noticed(Hearing(t0, rounds), t, k) && TickAt(t, k) <= deafAt + CANARY_DETECTION_BOUND_MS
  {
    var j := HearingSteady(t0, rounds);
    var t := TickAt(t0, |rounds| - 1);
    var k := TicksToNotice(Hearing(t0, rounds), j);
    DeafIsNoticed(Hearing(t0, rounds), t, j);
    assert k <= 16 && TickAt(t, k) <= deafAt + CANARY_DETECTION_BOUND_MS;
  }

  // --- in place ---

  class SubscriberCanary {
    var sequence: nat
    var lastSentAt: Option<int>
    var outstanding: Option<Outstanding>
    ghost var received: set<nat>
    ghost var resolved: map<nat, int>
    ghost var unreadyUpTo: nat
    ghost var misses: seq<Miss>

    ghost function View(): World
      reads this
    {
      World(sequence, lastSentAt, outstanding, received, resolved, unreadyUpTo, misses)
    }

    constructor ()
      ensures View() == Init
    {
      sequence, lastSentAt, outstanding := 0, None, None;
      received, resolved, unreadyUpTo, misses := {}, map[], 0, [];
    }

    method OnReceived(token: nat)
      modifies this
      ensures View() == Received(old(View()), token)
    {
      if outstanding.Some? && outstanding.value.token == token { outstanding := None; }
      received := received + {token};
    }

    method OnResolved(token: nat, at: int)
      modifies this
      ensures View() == Resolved(old(View()), token, at)
    {
      if outstanding.Some? && outstanding.value.token == token {
        outstanding := Some(outstanding.value.(publishedAt := Some(at)));
      }
      resolved := resolved[token := at];
    }

    method OnFailed(token: nat)
      modifies this
      ensures View() == Failed(old(View()), token)
    {
      if outstanding.Some? && outstanding.value.token == token { outstanding := None; }
    }

    /** Returns the argument of reconnect, if it is called, and the token to publish, if any. */
    method OnTick(at: int, ready: bool) returns (missed: Option<int>, publish: Option<nat>)
      modifies this
      ensures View() == Tick(old(View()), at, ready)
      ensures missed ==
        if ready && Missed(old(View()), at) then Some(at - old(outstanding).value.publishedAt.value) else None
      ensures publish == if sequence > old(sequence) then Some(sequence) else None
    {
      missed, publish := None, None;
      if !ready {
        outstanding := None;
        unreadyUpTo := sequence;
        return;
      }
      if outstanding.Some? {
        var o := outstanding.value;
        if o.publishedAt.Some? && at - o.publishedAt.value > CANARY_TIMEOUT_MS {
          outstanding := None;
          missed := Some(at - o.publishedAt.value);
          misses := misses + [Miss(o.token, at - o.publishedAt.value, at)];
        }
        return;
      }
      if lastSentAt.Some? && at - lastSentAt.value < CANARY_INTERVAL_MS { return; }
      lastSentAt := Some(at);
      sequence := sequence + 1;
      outstanding := Some(Outstanding(sequence, None));
      publish := Some(sequence);
    }

    /** Every event takes exactly the specified step and keeps the invariant; if
        reconnect is called, it is for a token that resolved that long ago and
        has not arrived. */
    method Handle(e: Event) returns (missed: Option<int>, publish: Option<nat>)
      requires Inv(View()) && Enabled(View(), e)
      modifies this
      ensures View() == Step(old(View()), e) && Inv(View())
      ensures missed.Some? ==> e.EvTick? && e.ready && sequence in resolved && sequence !in received
      ensures missed.Some? ==> missed.value == e.at - resolved[sequence] > CANARY_TIMEOUT_MS
      ensures publish.Some? ==> e.EvTick? && e.ready && publish.value == sequence == old(sequence) + 1
    {
      StepKeeps(View(), e);
      missed, publish := None, None;
      match e
      case EvReceived(token) => OnReceived(token);
      case EvResolved(token, at) => OnResolved(token, at);
      case EvFailed(token) => OnFailed(token);
      case EvTick(at, ready) => missed, publish := OnTick(at, ready);
    }
  }
}
