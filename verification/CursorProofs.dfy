/** Cids never clash and every page converges to what the room announced. */
module CursorProofs {
  import opened Prelude
  import opened CursorRoom

  // --- allocation ---

  lemma {:induction false} AllOfRangeUsed(used: set<nat>, n: nat)
    requires forall i :: 1 <= i <= n ==> i in used
    ensures |used| >= n
    decreases n
  {
    if n > 0 { AllOfRangeUsed(used - {n}, n - 1); }
  }

  lemma {:induction false} RangeBounds(used: set<nat>, n: nat)
    requires forall i :: i in used ==> 1 <= i <= n
    ensures |used| <= n
    decreases n
  {
    if n == 0 {
      assert used == {};
    } else {
      RangeBounds(used - {n}, n - 1);
    }
  }

  /** The wrapping scan ends iff fewer than 65535 cids are in use. */
  lemma ScanEndsIffRoomLeft(used: set<nat>)
    requires forall i :: i in used ==> 1 <= i < CIDS
    ensures (exists cid: nat :: cid < CIDS && Free(used, cid)) <==> |used| < CIDS - 1
  {
    if |used| < CIDS - 1 {
      if forall i :: 1 <= i <= CIDS - 1 ==> i in used { AllOfRangeUsed(used, CIDS - 1); }
      var i :| 1 <= i <= CIDS - 1 && i !in used;
      assert Free(used, i);
    } else {
      forall cid: nat | cid < CIDS ensures !Free(used, cid) {
        if Free(used, cid) { RangeBounds(used + {cid}, CIDS - 1); }
      }
    }
  }

  /** How far the scan is from a free cid. */
  function Gap(n: nat, cid: nat): nat
    requires n < CIDS && cid < CIDS
  {
    if n <= cid then cid - n else cid + CIDS - n
  }

  /** The scan stops at a free cid, if there is one within reach. */
  lemma {:induction false} FirstFreeIsFree(used: set<nat>, n: nat, k: nat, cid: nat)
    requires n < CIDS && cid < CIDS && Free(used, cid) && Gap(n, cid) < k
    ensures Free(used, FirstFree(used, n, k))
    decreases k
  {
    if !Free(used, n) {
      FirstFreeIsFree(used, (n + 1) % CIDS, k - 1, cid);
    }
  }

  lemma UsedAtMost(cursors: map<ClientId, Cursor>, ids: set<ClientId>)
    requires ids <= cursors.Keys
    ensures |set c | c in ids :: cursors[c].cid| <= |ids|
    decreases |ids|
  {
    var cids := set c | c in ids :: cursors[c].cid;
    if cids != {} {
      var cid :| cid in cids;
      var c :| c in ids && cursors[c].cid == cid;
      UsedAtMost(cursors, ids - {c});
      assert cids == (set d | d in ids - {c} :: cursors[d].cid) + {cid};
    }
  }

  /** allocCid returns a nonzero cid that no current cursor has, whenever fewer
      than 65535 cursors exist. */
  lemma AllocIsFresh(w: World)
    requires w.nextCid < CIDS && |w.cursors| < CIDS - 1
    requires forall c :: c in w.cursors ==> 1 <= w.cursors[c].cid < CIDS
    ensures Free(Used(w.cursors), Alloc(w))
  {
    var used := Used(w.cursors);
    UsedAtMost(w.cursors, w.cursors.Keys);
    assert used == set c | c in w.cursors.Keys :: w.cursors[c].cid;
    assert |w.cursors.Keys| == |w.cursors|;
    ScanEndsIffRoomLeft(used);
    var cid: nat :| cid < CIDS && Free(used, cid);
    FirstFreeIsFree(used, w.nextCid, CIDS, cid);
  }

  // --- the invariant ---

  ghost predicate GoodCursors(w: World) {
    && w.nextCid < CIDS
    && (forall c :: c in w.cursors ==> 1 <= w.cursors[c].cid < CIDS && (w.cursors[c].dirty ==> w.cursors[c].announced))
    && DistinctCids(w.cursors)
  }

  ghost predicate GoodOrder(order: seq<ClientId>, ids: set<ClientId>) {
    && (forall i, j :: 0 <= i < j < |order| ==> order[i] != order[j])
    && (forall c :: c in order <==> c in ids)
  }

  ghost predicate ShownRight(r: Replica, d: Cursor) {
    && d.cid in r.cursors
    && r.cursors[d.cid].color == d.color && r.cursors[d.cid].name == d.name
    && (!d.dirty ==> r.cursors[d.cid].x == DecodeCoord(d.x) && r.cursors[d.cid].y == DecodeCoord(d.y))
  }

  /** Client d's cursor is announced under cid k. */
  ghost predicate Owns(cursors: map<ClientId, Cursor>, d: ClientId, k: nat) {
    d in cursors && cursors[d].announced && cursors[d].cid == k
  }

  /** The copy of client c shows every other announced cursor, up to moves the
      next tick will send, and nothing else. */
  ghost predicate Matches(cursors: map<ClientId, Cursor>, c: ClientId, r: Replica) {
    && c in cursors && r.me == Some(cursors[c].cid)
    && (forall d :: d in cursors && d != c && cursors[d].announced ==> ShownRight(r, cursors[d]))
    && (forall k :: k in r.cursors ==> exists d :: d != c && Owns(cursors, d, k))
  }

  /** The copy of client c once its queue has drained. */
  function Drained(w: World, c: ClientId): Replica
    requires c in w.queues && c in w.replicas
  {
    ApplyAll(w.replicas[c], w.queues[c])
  }

  ghost predicate Inv(w: World) {
    && GoodCursors(w)
    && GoodOrder(w.order, w.cursors.Keys)
    && w.members == w.queues.Keys == w.replicas.Keys
    && (forall c {:trigger Matches(w.cursors, c, Drained(w, c))} :: c in w.members ==>
      Matches(w.cursors, c, Drained(w, c)))
  }

  // --- queues ---

  lemma ApplyLast(r: Replica, queue: seq<Message>, m: Message)
    ensures ApplyAll(r, queue + [m]) == Apply(ApplyAll(r, queue), m)
  {
    assert (queue + [m])[..|queue|] == queue;
  }

  lemma {:induction false} ApplyFirst(r: Replica, queue: seq<Message>)
    requires queue != []
    ensures ApplyAll(Apply(r, queue[0]), queue[1..]) == ApplyAll(r, queue)
    decreases |queue|
  {
    if |queue| > 1 {
      ApplyFirst(r, queue[..|queue| - 1]);
      assert queue[1..][..|queue| - 2] == queue[..|queue| - 1][1..];
    } else {
      assert queue[1..] == [] && queue[..0] == [];
    }
  }

  // --- snapshot ---

  lemma {:induction false} SnapshotShows(cursors: map<ClientId, Cursor>, order: seq<ClientId>)
    requires forall c :: c in order ==> c in cursors
    requires DistinctCids(cursors)
    ensures var shown := FromSnapshot(Announced(cursors, order));
      && (forall d :: d in order && cursors[d].announced ==>
        cursors[d].cid in shown && shown[cursors[d].cid] == Show(List(cursors[d])))
      && (forall k :: k in shown ==> exists d :: d in order && Owns(cursors, d, k))
    decreases |order|
  {
    if order != [] {
      var before, c := order[..|order| - 1], order[|order| - 1];
      SnapshotShows(cursors, before);
      assert order == before + [c];
      if cursors[c].announced {
        var listed := Announced(cursors, before);
        assert (listed + [List(cursors[c])])[..|listed|] == listed;
        assert FromSnapshot(Announced(cursors, order)) ==
          FromSnapshot(listed)[cursors[c].cid := Show(List(cursors[c]))];
      } else {
        assert Announced(cursors, order) == Announced(cursors, before);
      }
    }
  }

  // --- moves ---

  ghost predicate DistinctCids(cursors: map<ClientId, Cursor>) {
    forall c, d :: c in cursors && d in cursors && c != d ==> cursors[c].cid != cursors[d].cid
  }

  /** r' is r with the dirty cursors of `ids` moved. */
  ghost predicate Moved(cursors: map<ClientId, Cursor>, ids: seq<ClientId>, r: Replica, r': Replica) {
    && r'.me == r.me && r'.cursors.Keys == r.cursors.Keys
    && forall d :: d in cursors && cursors[d].cid in r.cursors ==>
        var k := cursors[d].cid;
        r'.cursors[k] ==
          if d in ids && cursors[d].dirty && r.me != Some(k) then
            r.cursors[k].(x := DecodeCoord(cursors[d].x), y := DecodeCoord(cursors[d].y))
          else r.cursors[k]
  }

  lemma OneMoreMoved(cursors: map<ClientId, Cursor>, ids: seq<ClientId>, c: ClientId, r: Replica, r1: Replica)
    requires DistinctCids(cursors) && c in cursors && c !in ids && Moved(cursors, ids, r, r1)
    ensures Moved(cursors, ids + [c], r,
      if cursors[c].dirty then ApplyMove(r1, Move(cursors[c].cid, cursors[c].x, cursors[c].y)) else r1)
  {
  }

  /** A frame moves exactly the dirty cursors it lists, and shows no new ones. */
  lemma {:induction false} MovesShow(cursors: map<ClientId, Cursor>, order: seq<ClientId>, r: Replica)
    requires forall i, j :: 0 <= i < j < |order| ==> order[i] != order[j]
    requires forall c :: c in order ==> c in cursors
    requires DistinctCids(cursors)
    ensures Moved(cursors, order, r, ApplyMoves(r, Moves(cursors, order)))
    decreases |order|
  {
    if order != [] {
      var before, c := order[..|order| - 1], order[|order| - 1];
      MovesShow(cursors, before, r);
      assert order == before + [c];
      OneMoreMoved(cursors, before, c, r, ApplyMoves(r, Moves(cursors, before)));
      var moves := Moves(cursors, before);
      if cursors[c].dirty {
        assert (moves + [Move(cursors[c].cid, cursors[c].x, cursors[c].y)])[..|moves|] == moves;
      } else {
        assert moves + [] == moves;
      }
    }
  }

  lemma {:induction false} NoMovesNoDirty(cursors: map<ClientId, Cursor>, order: seq<ClientId>)
    requires forall c :: c in order ==> c in cursors
    requires Moves(cursors, order) == []
    ensures forall d :: d in order ==> !cursors[d].dirty
    decreases |order|
  {
    if order != [] {
      NoMovesNoDirty(cursors, order[..|order| - 1]);
      assert order == order[..|order| - 1] + [order[|order| - 1]];
    }
  }

  // --- steps ---

  lemma JoinKeepsOthers(w: World, id: ClientId, color: string, name: string, c: ClientId)
    requires Inv(w) && Enabled(w, EvJoin(id, color, name)) && c in w.members
    ensures var w' := OnJoin(w, id, color, name); Matches(w'.cursors, c, Drained(w', c))
  {
    var w' := OnJoin(w, id, color, name);
    ApplyLast(w.replicas[c], w.queues[c], Presence(|w'.members|));
    assert Drained(w', c) == Drained(w, c);
    assert Matches(w.cursors, c, Drained(w, c));
    forall k | k in Drained(w', c).cursors
      ensures exists d :: d != c && Owns(w'.cursors, d, k)
    {
      var d :| d != c && Owns(w.cursors, d, k);
      assert Owns(w'.cursors, d, k);
    }
  }

  lemma JoinerMatches(w: World, id: ClientId, color: string, name: string)
    requires Inv(w) && Enabled(w, EvJoin(id, color, name))
    requires GoodCursors(OnJoin(w, id, color, name))
    requires GoodOrder(OnJoin(w, id, color, name).order, w.cursors.Keys + {id})
    ensures var w' := OnJoin(w, id, color, name); Matches(w'.cursors, id, Drained(w', id))
  {
    var w' := OnJoin(w, id, color, name);
    var r := Replica(None, map[]);
    var snapshot := Snapshot(w'.cursors[id].cid, color, name, Announced(w'.cursors, w'.order));
    ApplyLast(r, [snapshot], Presence(|w'.members|));
    ApplyLast(r, [], snapshot);
    assert [] + [snapshot] == [snapshot];
    assert Drained(w', id) == Apply(r, snapshot);
    assert Drained(w', id).cursors == FromSnapshot(Announced(w'.cursors, w'.order));
    SnapshotShows(w'.cursors, w'.order);
    forall d | d in w'.cursors && d != id && w'.cursors[d].announced
      ensures ShownRight(Drained(w', id), w'.cursors[d])
    {
      assert d in w'.order;
    }
    forall k | k in Drained(w', id).cursors
      ensures exists d :: d != id && Owns(w'.cursors, d, k)
    {
      assert k in FromSnapshot(Announced(w'.cursors, w'.order));
      var d :| d in w'.order && Owns(w'.cursors, d, k);
    }
  }

  lemma OrderGrows(order: seq<ClientId>, ids: set<ClientId>, id: ClientId)
    requires GoodOrder(order, ids) && id !in ids
    ensures GoodOrder(order + [id], ids + {id})
  {
  }

  lemma CursorAdded(cursors: map<ClientId, Cursor>, id: ClientId, d: Cursor)
    requires DistinctCids(cursors) && Free(Used(cursors), d.cid)
    ensures DistinctCids(cursors[id := d])
  {
    forall c | c in cursors ensures cursors[c].cid != d.cid { assert cursors[c].cid in Used(cursors); }
  }

  lemma JoinKeepsCids(w: World, id: ClientId, color: string, name: string)
    requires GoodCursors(w) && |w.cursors| < CIDS - 1
    ensures GoodCursors(OnJoin(w, id, color, name))
  {
    AllocIsFresh(w);
    CursorAdded(w.cursors, id, Cursor(Alloc(w), color, name, 0, 0, false, false));
  }

  lemma JoinKeepsCursors(w: World, id: ClientId, color: string, name: string)
    requires Inv(w) && Enabled(w, EvJoin(id, color, name))
    ensures var w' := OnJoin(w, id, color, name); GoodCursors(w') && GoodOrder(w'.order, w'.cursors.Keys)
  {
    JoinKeepsCids(w, id, color, name);
    OrderGrows(w.order, w.cursors.Keys, id);
    JoinKeys(w, id, color, name);
  }

  lemma JoinKeys(w: World, id: ClientId, color: string, name: string)
    requires w.nextCid < CIDS
    ensures var w' := OnJoin(w, id, color, name);
      && w'.cursors.Keys == w.cursors.Keys + {id} && w'.members == w.members + {id}
      && w'.queues.Keys == w.queues.Keys + {id} && w'.replicas.Keys == w.replicas.Keys + {id}
  {
  }

  lemma JoinKeeps(w: World, id: ClientId, color: string, name: string)
    requires Inv(w) && Enabled(w, EvJoin(id, color, name))
    ensures Inv(OnJoin(w, id, color, name))
  {
    JoinKeepsCursors(w, id, color, name);
    var w' := OnJoin(w, id, color, name);
    JoinKeys(w, id, color, name);
    forall c | c in w'.members ensures Matches(w'.cursors, c, Drained(w', c)) {
      if c == id { JoinerMatches(w, id, color, name); } else { JoinKeepsOthers(w, id, color, name, c); }
    }
  }

  /** A cursor's first move reaches every page but its own. */
  lemma AnnounceMatches(cursors: map<ClientId, Cursor>, id: ClientId, d: Cursor, c: ClientId, r: Replica)
    requires id in cursors && DistinctCids(cursors) && Matches(cursors, c, r)
    requires !cursors[id].announced && d.announced && d.cid == cursors[id].cid
    ensures Matches(cursors[id := d], c, Apply(r, Join(List(d))))
  {
    var cursors' := cursors[id := d];
    var r' := Apply(r, Join(List(d)));
    forall k | k in r'.cursors ensures exists e :: e != c && Owns(cursors', e, k) {
      if k in r.cursors {
        var e :| e != c && Owns(cursors, e, k);
        assert Owns(cursors', e, k);
      } else {
        assert Owns(cursors', id, k);
      }
    }
  }

  lemma DirtyMatches(cursors: map<ClientId, Cursor>, id: ClientId, d: Cursor, c: ClientId, r: Replica)
    requires id in cursors && Matches(cursors, c, r)
    requires cursors[id].announced && d.announced && d.dirty
    requires d.cid == cursors[id].cid && d.color == cursors[id].color && d.name == cursors[id].name
    ensures Matches(cursors[id := d], c, r)
  {
    var cursors' := cursors[id := d];
    forall k | k in r.cursors ensures exists e :: e != c && Owns(cursors', e, k) {
      var e :| e != c && Owns(cursors, e, k);
      assert Owns(cursors', e, k);
    }
  }

  lemma MessageKeepsPage(w: World, id: ClientId, x: nat, y: nat, c: ClientId)
    requires Inv(w) && id in w.cursors && c in w.members
    ensures var w' := OnMessage(w, id, x, y); Matches(w'.cursors, c, Drained(w', c))
  {
    var d := OnMessage(w, id, x, y).cursors[id];
    assert Matches(w.cursors, c, Drained(w, c));
    if !w.cursors[id].announced {
      ApplyLast(w.replicas[c], w.queues[c], Join(List(d)));
      AnnounceMatches(w.cursors, id, d, c, Drained(w, c));
    } else {
      DirtyMatches(w.cursors, id, d, c, Drained(w, c));
    }
  }

  lemma MessageKeepsCursors(w: World, id: ClientId, x: nat, y: nat)
    requires GoodCursors(w)
    ensures GoodCursors(OnMessage(w, id, x, y))
  {
  }

  lemma MessageKeeps(w: World, id: ClientId, x: nat, y: nat)
    requires Inv(w)
    ensures Inv(OnMessage(w, id, x, y))
  {
    if id in w.cursors {
      var w' := OnMessage(w, id, x, y);
      MessageKeepsCursors(w, id, x, y);
      assert w'.cursors.Keys == w.cursors.Keys;
      forall c | c in w'.members ensures Matches(w'.cursors, c, Drained(w', c)) {
        MessageKeepsPage(w, id, x, y, c);
      }
    }
  }

  lemma {:induction false} WithoutIs(order: seq<ClientId>, id: ClientId)
    requires forall i, j :: 0 <= i < j < |order| ==> order[i] != order[j]
    ensures var rest := Without(order, id);
      && (forall i, j :: 0 <= i < j < |rest| ==> rest[i] != rest[j])
      && (forall c :: c in rest <==> c in order && c != id)
    decreases |order|
  {
    if order != [] {
      var before, last := order[..|order| - 1], order[|order| - 1];
      WithoutIs(before, id);
      assert order == before + [last];
      assert last !in Without(before, id);
    }
  }

  lemma LeaveMatches(cursors: map<ClientId, Cursor>, id: ClientId, c: ClientId, r: Replica)
    requires id in cursors && id != c && DistinctCids(cursors) && Matches(cursors, c, r)
    ensures Matches(cursors - {id}, c, if cursors[id].announced then Apply(r, Leave(cursors[id].cid)) else r)
  {
    var cursors' := cursors - {id};
    var r' := if cursors[id].announced then Apply(r, Leave(cursors[id].cid)) else r;
    forall k | k in r'.cursors ensures exists e :: e != c && Owns(cursors', e, k) {
      var e :| e != c && Owns(cursors, e, k);
      assert Owns(cursors', e, k);
    }
  }

  lemma LeaveDrained(w: World, id: ClientId, c: ClientId)
    requires c in w.queues && c in w.replicas && c in w.members
    ensures c in OnLeave(w, id).queues && Drained(OnLeave(w, id), c) ==
      if id in w.cursors && w.cursors[id].announced then Apply(Drained(w, c), Leave(w.cursors[id].cid))
      else Drained(w, c)
  {
    var presence := Presence(|w.members|);
    if id in w.cursors && w.cursors[id].announced {
      ApplyLast(w.replicas[c], w.queues[c], Leave(w.cursors[id].cid));
      ApplyLast(w.replicas[c], w.queues[c] + [Leave(w.cursors[id].cid)], presence);
    } else {
      ApplyLast(w.replicas[c], w.queues[c], presence);
    }
  }

  lemma LeaveKeepsPage(w: World, id: ClientId, c: ClientId)
    requires DistinctCids(w.cursors) && id !in w.members && c in w.members
    requires c in w.queues && c in w.replicas && Matches(w.cursors, c, Drained(w, c))
    ensures var w' := OnLeave(w, id); c in w'.queues && Matches(w'.cursors, c, Drained(w', c))
  {
    LeaveDrained(w, id, c);
    if id in w.cursors {
      LeaveMatches(w.cursors, id, c, Drained(w, c));
    }
  }

  lemma LeaveKeepsCursors(w: World, id: ClientId)
    requires GoodCursors(w) && GoodOrder(w.order, w.cursors.Keys)
    ensures GoodCursors(OnLeave(w, id)) && GoodOrder(OnLeave(w, id).order, OnLeave(w, id).cursors.Keys)
  {
    WithoutIs(w.order, id);
  }

  lemma LeaveKeepsKeys(w: World, id: ClientId)
    ensures var w' := OnLeave(w, id);
      w'.members == w.members && w'.queues.Keys == w.queues.Keys && w'.replicas == w.replicas
  {
  }

  lemma LeaveKeeps(w: World, id: ClientId)
    requires Inv(w) && Enabled(w, EvLeave(id))
    ensures Inv(OnLeave(w, id))
  {
    var w' := OnLeave(w, id);
    LeaveKeepsCursors(w, id);
    LeaveKeepsKeys(w, id);
    forall c | c in w'.members ensures Matches(w'.cursors, c, Drained(w', c)) {
      assert Matches(w.cursors, c, Drained(w, c));
      LeaveKeepsPage(w, id, c);
    }
  }

  lemma FrameMatches(cursors: map<ClientId, Cursor>, order: seq<ClientId>, c: ClientId, r: Replica)
    requires DistinctCids(cursors) && GoodOrder(order, cursors.Keys) && Matches(cursors, c, r)
    ensures Matches(Clean(cursors), c, Apply(r, Frame(Moves(cursors, order))))
  {
    MovesShow(cursors, order, r);
    var r' := ApplyMoves(r, Moves(cursors, order));
    forall d | d in Clean(cursors) && d != c && Clean(cursors)[d].announced ensures ShownRight(r', Clean(cursors)[d]) {
      assert ShownRight(r, cursors[d]);
      assert d in order;
    }
    forall k | k in r'.cursors ensures exists e :: e != c && Owns(Clean(cursors), e, k) {
      var e :| e != c && Owns(cursors, e, k);
      assert Owns(Clean(cursors), e, k);
    }
  }

  lemma TickKeepsPage(w: World, c: ClientId)
    requires Inv(w) && c in w.members
    ensures Matches(Tick(w).cursors, c, Drained(Tick(w), c))
  {
    var moves := Moves(w.cursors, w.order);
    assert Matches(w.cursors, c, Drained(w, c));
    if moves == [] {
      NoMovesNoDirty(w.cursors, w.order);
      assert Clean(w.cursors) == w.cursors;
    } else {
      ApplyLast(w.replicas[c], w.queues[c], Frame(moves));
      FrameMatches(w.cursors, w.order, c, Drained(w, c));
    }
  }

  lemma CleanKeepsCursors(w: World)
    requires GoodCursors(w)
    ensures GoodCursors(Tick(w)) && Tick(w).cursors.Keys == w.cursors.Keys
  {
  }

  lemma TickKeeps(w: World)
    requires Inv(w)
    ensures Inv(Tick(w))
  {
    CleanKeepsCursors(w);
    forall c | c in Tick(w).members ensures Matches(Tick(w).cursors, c, Drained(Tick(w), c)) {
      TickKeepsPage(w, c);
    }
  }

  lemma DeliverKeeps(w: World, id: ClientId)
    requires Inv(w) && Enabled(w, EvDeliver(id))
    ensures Inv(Deliver(w, id))
  {
    var w' := Deliver(w, id);
    ApplyFirst(w.replicas[id], w.queues[id]);
    forall c | c in w'.members ensures Matches(w'.cursors, c, Drained(w', c)) {
      assert Matches(w.cursors, c, Drained(w, c));
      assert Drained(w', c) == Drained(w, c);
    }
  }

  lemma EvictKeeps(w: World, id: ClientId)
    requires Inv(w)
    ensures Inv(Evict(w, id))
  {
    var w' := Evict(w, id);
    forall c | c in w'.members ensures Matches(w'.cursors, c, Drained(w', c)) {
      assert Matches(w.cursors, c, Drained(w, c));
    }
  }

  lemma StepKeeps(w: World, e: Event)
    requires Inv(w) && Enabled(w, e)
    ensures Inv(Step(w, e))
  {
    match e
    case EvJoin(id, color, name) => JoinKeeps(w, id, color, name);
    case EvMessage(id, x, y) => MessageKeeps(w, id, x, y);
    case EvEvict(id) => EvictKeeps(w, id);
    case EvLeave(id) => LeaveKeeps(w, id);
    case EvTick => TickKeeps(w);
    case EvDeliver(id) => DeliverKeeps(w, id);
  }

  // --- runs ---

  ghost predicate Reaches(w: World, es: seq<Event>, w': World)
    decreases |es|
  {
    if es == [] then w == w'
    else Enabled(w, es[0]) && Reaches(Step(w, es[0]), es[1..], w')
  }

  lemma {:induction false} RunKeeps(w: World, es: seq<Event>, w': World)
    requires Inv(w) && Reaches(w, es, w')
    ensures Inv(w')
    decreases |es|
  {
    if es != [] {
      StepKeeps(w, es[0]);
      RunKeeps(Step(w, es[0]), es[1..], w');
    }
  }

  /** The cursors of the others, as the page should show them. */
  ghost predicate ShowsExactly(cursors: map<ClientId, Cursor>, c: ClientId, r: Replica) {
    && (forall k :: k in r.cursors <==> exists d :: d != c && Owns(cursors, d, k))
    && (forall d :: d in cursors && d != c && cursors[d].announced ==>
          cursors[d].cid in r.cursors
          && r.cursors[cursors[d].cid] ==
            Shown(cursors[d].color, cursors[d].name, DecodeCoord(cursors[d].x), DecodeCoord(cursors[d].y)))
  }

  /** After every tick of every run, each page shows, once its queue has drained,
      exactly the announced cursors of the others: identity and position. */
  lemma PagesConverge(es: seq<Event>, w: World, c: ClientId)
    requires Reaches(Init, es, w)
    requires c in Tick(w).members
    ensures c in Tick(w).queues && c in Tick(w).replicas
    ensures ShowsExactly(Tick(w).cursors, c, Drained(Tick(w), c))
    ensures Tick(w).queues[c] == [] ==> ShowsExactly(Tick(w).cursors, c, Tick(w).replicas[c])
  {
    RunKeeps(Init, es, w);
    TickKeeps(w);
    var w' := Tick(w);
    assert Matches(w'.cursors, c, Drained(w', c));
    forall d | d in w'.cursors && d != c && w'.cursors[d].announced
      ensures ShownRight(Drained(w', c), w'.cursors[d])
    {
    }
  }

  /** In every run, current cids are nonzero, below 65536 and pairwise different. */
  lemma CidsNeverClash(es: seq<Event>, w: World, c: ClientId, d: ClientId)
    requires Reaches(Init, es, w) && c in w.cursors && d in w.cursors
    ensures 1 <= w.cursors[c].cid < CIDS
    ensures c != d ==> w.cursors[c].cid != w.cursors[d].cid
  {
    RunKeeps(Init, es, w);
  }
}
