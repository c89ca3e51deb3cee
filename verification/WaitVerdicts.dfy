/** When the wait for a room settles and with what, event by event and over runs
    (src/driver/wait-for-room.ts). */
module WaitVerdicts {
  import opened Prelude
  import opened WaitForRoom

  /** The events that settle a wait: a read that found the room running, a miss
      that counts, the timeout, a failure signal, a failed registration. */
  predicate Decides(w: World, e: Event) {
    match e
    case EvReadDone(i) => i < |w.lookups| && (FoundRunning(w.lookups[i]) || MissCounts(w.lookups[i]))
    case EvTimeout => true
    case EvFailed(_) => true
    case EvRegistrationFailed => true
    case _ => false
  }

  predicate FoundRunning(r: Read) { r.served == Some(Some(Running)) }

  predicate MissCounts(r: Read) { r.served == Some(None) && (r.afterReady || r.registeredWhenIssued) }

  /** A wait that is on settles at exactly these events. */
  lemma SettlesIff(t: Timing, w: World, e: Event)
    requires Enabled(t, w, e) && !w.settled
    ensures Step(w, e).settled <==> Decides(w, e)
    ensures !Step(w, e).settled ==> Step(w, e).outcome == w.outcome && Step(w, e).settles == w.settles
  {
    if e.EvReadDone? { ReadSettlesIff(w, e.i, ReadDone(w, e.i)); }
  }

  lemma ReadSettlesIff(w: World, i: nat, w': World)
    requires i < |w.lookups| && w.lookups[i].served.Some? && !w.settled && w' == ReadDone(w, i)
    ensures w'.settled <==> FoundRunning(w.lookups[i]) || MissCounts(w.lookups[i])
    ensures !w'.settled ==> w'.outcome == w.outcome && w'.settles == w.settles
  {
  }

  /** A read that found the room running resolves the wait. */
  lemma RunningResolves(t: Timing, w: World, i: nat)
    requires Enabled(t, w, EvReadDone(i)) && !w.settled && FoundRunning(w.lookups[i])
    ensures var w' := Step(w, EvReadDone(i));
      w'.settled && w'.outcome == Some(Resolved(Running)) && w'.settles == w.settles + 1
  {
    var w' := ReadDone(w, i);
    assert w'.settled;
  }

  /** A miss rejects it: as a failed start after a ready signal, otherwise as a
      removal if the room was known to be registered. */
  lemma MissRejects(t: Timing, w: World, i: nat)
    requires Enabled(t, w, EvReadDone(i)) && !w.settled && MissCounts(w.lookups[i])
    ensures var w' := Step(w, EvReadDone(i));
      w'.settled && w'.settles == w.settles + 1
        && w'.outcome == Some(Rejected(if w.lookups[i].afterReady then StartError else Removed))
  {
    var w' := ReadDone(w, i);
    assert w'.settled;
  }

  /** The other three reject it with their own error. */
  lemma SignalsReject(t: Timing, w: World, e: Event)
    requires Enabled(t, w, e) && !w.settled && (e.EvTimeout? || e.EvFailed? || e.EvRegistrationFailed?)
    ensures var w' := Step(w, e);
      w'.settled && w'.settles == w.settles + 1 && w'.outcome.Some? && w'.outcome.value.Rejected?
        && w'.outcome.value.error ==
          if e.EvTimeout? then TimedOut else if e.EvFailed? then Failed(e.reason) else RegistrationFailed
  {
  }

  // --- which reads there are ---

  /** The events that make the waiter look at the record. */
  predicate Looks(w: World, e: Event) {
    e.EvRegistered? || e.EvPoll? || e.EvReady? || (e.EvSubscribed? && !w.settled)
  }

  /** A read of the run: issued by the event before state k, or at the start. */
  ghost predicate IssuedBy(es: seq<Event>, r: Read, k: nat)
    requires k <= |es|
  {
    && (r.afterReady <==> k > 0 && es[k - 1].EvReady?)
    && (r.registeredWhenIssued <==> EvRegistered in es[..k])
  }

  ghost predicate Issued(es: seq<Event>, r: Read) { exists k: nat :: k <= |es| && IssuedBy(es, r, k) }

  ghost predicate AllIssued(w: World, es: seq<Event>) {
    && (w.isRegistered <==> EvRegistered in es)
    && forall i {:trigger w.lookups[i]} :: 0 <= i < |w.lookups| ==>
         Issued(es, w.lookups[i])
  }

  lemma StillIssued(es: seq<Event>, e: Event, r: Read, r': Read, k: nat)
    requires k <= |es| && IssuedBy(es, r, k)
    requires r'.afterReady == r.afterReady && r'.registeredWhenIssued == r.registeredWhenIssued
    ensures IssuedBy(es + [e], r', k)
  {
    assert (es + [e])[..k] == es[..k];
  }

  /** Each look issues one read, which remembers why it was made and whether the
      registration was known; no other event issues any. */
  lemma LooksIssue(t: Timing, w: World, e: Event)
    requires Enabled(t, w, e)
    ensures var w' := Step(w, e);
      && |w'.lookups| == |w.lookups| + (if Looks(w, e) then 1 else 0)
      && (Looks(w, e) ==> w'.lookups[|w.lookups|] == Read(e.EvReady?, w'.isRegistered, None, false))
      && (forall i :: 0 <= i < |w.lookups| ==> SameRead(w.lookups[i], w'.lookups[i]))
      && (w'.isRegistered <==> w.isRegistered || e.EvRegistered?)
  {
    if e.EvReadDone? { ReadDoneKeepsReads(w, e.i, ReadDone(w, e.i)); }
  }

  predicate SameRead(r: Read, r': Read) {
    r'.afterReady == r.afterReady && r'.registeredWhenIssued == r.registeredWhenIssued
  }

  lemma ReadDoneKeepsReads(w: World, i: nat, w': World)
    requires i < |w.lookups| && w.lookups[i].served.Some? && w' == ReadDone(w, i)
    ensures |w'.lookups| == |w.lookups| && w'.isRegistered == w.isRegistered
    ensures forall k :: 0 <= k < |w.lookups| ==> SameRead(w.lookups[k], w'.lookups[k])
  {
    var w1 := w.(lookups := w.lookups[i := w.lookups[i].(done := true)]);
    FinishKeepsReads(w1, Resolved(Running));
    FinishKeepsReads(w1, Rejected(StartError));
    FinishKeepsReads(w1, Rejected(Removed));
    assert w'.lookups == w1.lookups;
  }

  lemma FinishKeepsReads(w: World, o: Outcome)
    ensures Finish(w, o).lookups == w.lookups && Finish(w, o).isRegistered == w.isRegistered
  {
  }

  lemma StepIssued(t: Timing, w: World, es: seq<Event>, e: Event, w': World)
    requires Enabled(t, w, e) && AllIssued(w, es) && w' == Step(w, e)
    ensures AllIssued(w', es + [e])
  {
    var es' := es + [e];
    LooksIssue(t, w, e);
    assert es'[..|es'|] == es' && (EvRegistered in es' <==> EvRegistered in es || e == EvRegistered);
    forall i | 0 <= i < |w'.lookups| ensures Issued(es', w'.lookups[i]) {
      if i < |w.lookups| {
        assert Issued(es, w.lookups[i]);
        var k: nat :| k <= |es| && IssuedBy(es, w.lookups[i], k);
        StillIssued(es, e, w.lookups[i], w'.lookups[i], k);
      } else {
        assert es'[|es'| - 1] == e && IssuedBy(es', w'.lookups[i], |es'|);
      }
    }
  }

  lemma {:induction false} RunIssued(t: Timing, past: seq<Event>, w: World, es: seq<Event>, w': World)
    requires AllIssued(w, past) && Reaches(t, w, es, w')
    ensures AllIssued(w', past + es)
    decreases |es|
  {
    if es == [] {
      assert past + es == past;
    } else {
      StepIssued(t, w, past, es[0], Step(w, es[0]));
      RunIssued(t, past + [es[0]], Step(w, es[0]), es[1..], w');
      assert past + [es[0]] + es[1..] == past + es;
    }
  }

  lemma StartIssued(w: World)
    requires !w.isRegistered && w.lookups == [Read(false, false, None, false)]
    ensures AllIssued(w, [])
  {
    assert IssuedBy([], w.lookups[0], 0);
  }

  /** In every run, a read counts its miss as a failed start iff a ready signal
      made it, and as a removal iff the registration had been reported by then. */
  lemma ReadsRemember(t: Timing, t0: int, es: seq<Event>, w: World, i: nat)
    requires Reaches(t, Init(t0, t.timeoutMs), es, w) && i < |w.lookups|
    ensures Issued(es, w.lookups[i])
  {
    var w0 := Init(t0, t.timeoutMs);
    StartIssued(w0);
    RunIssued(t, [], w0, es, w);
    assert [] + es == es;
  }

  /** The record poll guarantees it: while a wait is on, a poll whose read reaches
      the driver when the room is running resolves it. */
  lemma PollFindsRunning(t: Timing, w: World)
    requires !w.settled && Visible(w) == Some(Running)
    ensures Enabled(t, w, EvPoll)
    ensures Enabled(t, Step(w, EvPoll), EvServe(|w.lookups|))
    ensures var w2 := Step(Step(w, EvPoll), EvServe(|w.lookups|));
      Enabled(t, w2, EvReadDone(|w.lookups|)) && Step(w2, EvReadDone(|w.lookups|)).outcome == Some(Resolved(Running))
  {
    var w2 := Step(Step(w, EvPoll), EvServe(|w.lookups|));
    RunningResolves(t, w2, |w.lookups|);
  }
}
