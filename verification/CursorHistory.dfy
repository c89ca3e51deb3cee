/** What the pages show, told by what happened: who joined as whom, where each
    visitor last pointed, who has left. */
module CursorHistory {
  import opened Prelude
  import opened CursorRoom
  import opened CursorProofs

  /** A visitor who is there: who it is, and where it last pointed, if it has. */
  datatype Visitor = Visitor(color: string, name: string, at: Option<(nat, nat)>)

  /** The visitor of a client id after these events. */
  function After(es: seq<Event>, id: ClientId): Option<Visitor> {
    if es == [] then None
    else
      var before := After(es[..|es| - 1], id);
      match es[|es| - 1]
      case EvJoin(i, color, name) => if i == id then Some(Visitor(color, name, None)) else before
      case EvMessage(i, x, y) => if i == id && before.Some? then Some(before.value.(at := Some((x, y)))) else before
      case EvLeave(i) => if i == id then None else before
      case _ => before
  }

  predicate SameVisitor(v: Option<Visitor>, cursors: map<ClientId, Cursor>, id: ClientId) {
    && (v.Some? <==> id in cursors)
    && (id in cursors ==>
          && cursors[id].color == v.value.color && cursors[id].name == v.value.name
          && (cursors[id].announced <==> v.value.at.Some?)
          && (v.value.at.Some? ==> (cursors[id].x, cursors[id].y) == v.value.at.value))
  }

  ghost predicate Remembers(es: seq<Event>, w: World) {
    forall id {:trigger After(es, id)} :: SameVisitor(After(es, id), w.cursors, id)
  }

  lemma StepRemembers(es: seq<Event>, w: World, e: Event, w': World)
    requires Enabled(w, e) && Remembers(es, w) && w' == Step(w, e)
    ensures Remembers(es + [e], w')
  {
    var es' := es + [e];
    assert es'[..|es'| - 1] == es;
    forall id ensures SameVisitor(After(es', id), w'.cursors, id) {
      assert SameVisitor(After(es, id), w.cursors, id);
    }
  }

  lemma {:induction false} RunRemembers(past: seq<Event>, w: World, es: seq<Event>, w': World)
    requires Remembers(past, w) && Reaches(w, es, w')
    ensures Remembers(past + es, w')
    decreases |es|
  {
    if es == [] {
      assert past + es == past;
    } else {
      StepRemembers(past, w, es[0], Step(w, es[0]));
      RunRemembers(past + [es[0]], Step(w, es[0]), es[1..], w');
      assert past + [es[0]] + es[1..] == past + es;
    }
  }

  /** The page shows a visitor under a cid. */
  ghost predicate Shows(r: Replica, cid: nat, v: Visitor)
    requires v.at.Some?
  {
    && cid in r.cursors
    && r.cursors[cid] == Shown(v.color, v.name, DecodeCoord(v.at.value.0), DecodeCoord(v.at.value.1))
  }

  predicate HasPointed(es: seq<Event>, id: ClientId) { After(es, id).Some? && After(es, id).value.at.Some? }

  /** After a tick of any run, each page shows, once its queue has drained, exactly
      the other visitors who have joined, pointed somewhere and not left: as who
      they joined, and where they pointed last. */
  lemma PagesShowHistory(es: seq<Event>, w: World, c: ClientId, w': World)
    requires Reaches(Init, es, w) && w' == Step(w, EvTick) && c in w'.members
    ensures c in w'.queues && c in w'.replicas
    ensures forall d :: d != c && HasPointed(es, d) ==>
      d in w'.cursors && Shows(Drained(w', c), w'.cursors[d].cid, After(es, d).value)
    ensures forall k :: k in Drained(w', c).cursors ==>
      exists d :: d != c && HasPointed(es, d) && d in w'.cursors && w'.cursors[d].cid == k
  {
    RunRemembers([], Init, es, w);
    assert [] + es == es;
    PagesConverge(es, w, c);
    var r := Drained(w', c);
    forall d ensures SameVisitor(After(es, d), w'.cursors, d) { assert SameVisitor(After(es, d), w.cursors, d); }
    forall k | k in r.cursors
      ensures exists d :: d != c && HasPointed(es, d) && d in w'.cursors && w'.cursors[d].cid == k
    {
      var d :| d != c && Owns(w'.cursors, d, k);
      assert HasPointed(es, d);
    }
  }

  predicate EndsWith(queues: map<ClientId, seq<Message>>, c: ClientId, m: Message) {
    c in queues && queues[c] != [] && queues[c][|queues[c]| - 1] == m
  }

  lemma BroadcastIsHeard(queues: map<ClientId, seq<Message>>, members: set<ClientId>, m: Message, c: ClientId)
    requires c in queues && c in members
    ensures EndsWith(Broadcast(queues, members, m), c, m) && Broadcast(queues, members, m)[c] == queues[c] + [m]
  {
  }

  /** A newcomer is told who it is, and everyone how many are there now. */
  lemma JoinIsTold(w: World, id: ClientId, color: string, name: string, w': World)
    requires Inv(w) && Enabled(w, EvJoin(id, color, name)) && w' == Step(w, EvJoin(id, color, name))
    ensures w'.members == w.members + {id} && id in w'.cursors && id in w'.queues
    ensures forall c :: c in w'.members ==> EndsWith(w'.queues, c, Presence(|w'.members|))
    ensures |w'.queues[id]| == 2 && w'.queues[id][0].Snapshot? && w'.queues[id][0].you == w'.cursors[id].cid
    ensures w'.queues[id][0].color == color && w'.queues[id][0].name == name
  {
    var members := w.members + {id};
    assert w'.queues == Broadcast(w.queues[id := [w'.queues[id][0]]], members, Presence(|members|));
    forall c | c in members ensures EndsWith(w'.queues, c, Presence(|members|)) {
      BroadcastIsHeard(w.queues[id := [w'.queues[id][0]]], members, Presence(|members|), c);
    }
  }

  /** When a visitor's leave is handled, everyone is told how many are there now. */
  lemma LeaveIsTold(w: World, id: ClientId, w': World)
    requires Inv(w) && Enabled(w, EvLeave(id)) && w' == Step(w, EvLeave(id))
    ensures w'.members == w.members && id !in w'.cursors
    ensures forall c :: c in w'.members ==> EndsWith(w'.queues, c, Presence(|w'.members|))
  {
    forall c | c in w.members ensures EndsWith(w'.queues, c, Presence(|w.members|)) {
      var queues := if id in w.cursors && w.cursors[id].announced
                    then Broadcast(w.queues, w.members, Leave(w.cursors[id].cid)) else w.queues;
      assert w'.queues == Broadcast(queues, w.members, Presence(|w.members|));
      BroadcastIsHeard(queues, w.members, Presence(|w.members|), c);
    }
  }
}
