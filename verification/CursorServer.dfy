/** The cursor room and the page in the source's own form. */
module CursorServer {
  import opened Prelude
  import opened CursorRoom
  import opened CursorProofs

  /** A scan from n that will reach `free` in fewer than k steps. */
  predicate Scans(used: set<nat>, n: nat, k: nat, free: nat) {
    n < CIDS && free < CIDS && Free(used, free) && Gap(n, free) < k && FirstFree(used, n, k) == free
  }

  lemma ScanStep(used: set<nat>, n: nat, k: nat, free: nat)
    requires Scans(used, n, k, free) && !Free(used, n)
    ensures k > 0 && Scans(used, (n + 1) % CIDS, k - 1, free)
  {
  }

  function CleanAmong(cursors: map<ClientId, Cursor>, ids: seq<ClientId>): map<ClientId, Cursor> {
    map c | c in cursors :: if c in ids then cursors[c].(dirty := false) else cursors[c]
  }

  lemma CleanOneMore(cursors: map<ClientId, Cursor>, ids: seq<ClientId>, c: ClientId)
    requires c in cursors && c !in ids
    ensures CleanAmong(cursors, ids)[c] == cursors[c]
    ensures CleanAmong(cursors, ids + [c]) ==
      if cursors[c].dirty then CleanAmong(cursors, ids)[c := cursors[c].(dirty := false)] else CleanAmong(cursors, ids)
  {
  }

  lemma CollectOneMore(cursors: map<ClientId, Cursor>, order: seq<ClientId>, i: nat)
    requires GoodOrder(order, cursors.Keys) && i < |order|
    ensures var s := cursors[order[i]];
      && CleanAmong(cursors, order[..i])[order[i]] == s
      && Moves(cursors, order[..i + 1]) ==
        Moves(cursors, order[..i]) + (if s.dirty then [Move(s.cid, s.x, s.y)] else [])
      && CleanAmong(cursors, order[..i + 1]) ==
        if s.dirty then CleanAmong(cursors, order[..i])[order[i] := s.(dirty := false)]
        else CleanAmong(cursors, order[..i])
  {
    assert order[i] in order && order[i] !in order[..i];
    CleanOneMore(cursors, order[..i], order[i]);
    assert order[..i + 1] == order[..i] + [order[i]];
    assert order[..i + 1][..i] == order[..i];
  }

  class Room {
    var cursors: map<ClientId, Cursor>
    var order: seq<ClientId>
    var nextCid: nat
    var members: set<ClientId>
    var queues: map<ClientId, seq<Message>>
    ghost var replicas: map<ClientId, Replica>

    ghost function View(): World
      reads this
    {
      World(cursors, order, nextCid, members, queues, replicas)
    }

    ghost predicate Valid()
      reads this
    {
      nextCid < CIDS && forall c :: c in order ==> c in cursors
    }

    constructor ()
      ensures View() == Init && Valid()
    {
      cursors, order, nextCid := map[], [], 1;
      members, queues, replicas := {}, map[], map[];
    }

    method CollectUsed() returns (used: set<nat>)
      requires Valid() && forall c :: c in cursors ==> c in order
      ensures used == Used(cursors)
    {
      used := {};
      for i := 0 to |order|
        invariant forall j :: 0 <= j < i ==> cursors[order[j]].cid in used
        invariant forall k :: k in used ==> exists c :: c in cursors && cursors[c].cid == k
      {
        used := used + {cursors[order[i]].cid};
      }
      forall k | k in Used(cursors) ensures k in used {
        var c :| c in cursors && cursors[c].cid == k;
        var j :| 0 <= j < |order| && order[j] == c;
      }
    }

    /** The wrapping scan for a free cid; it needs one to exist. */
    method AllocCid() returns (cid: nat)
      requires Valid() && forall c :: c in cursors ==> c in order && 1 <= cursors[c].cid < CIDS
      requires |cursors| < CIDS - 1
      modifies this`nextCid
      ensures cid == Alloc(old(View())) && Free(Used(cursors), cid)
      ensures nextCid == (cid + 1) % CIDS
    {
      var used := CollectUsed();
      ghost var free: nat := Alloc(View());
      AllocIsFresh(View());
      ghost var k := CIDS;
      assert Scans(used, nextCid, k, free);
      while nextCid in used || nextCid == 0
        invariant 0 <= k && Scans(used, nextCid, k, free)
        decreases k
      {
        ScanStep(used, nextCid, k, free);
        nextCid := (nextCid + 1) % CIDS;
        k := k - 1;
      }
      cid := nextCid;
      nextCid := (nextCid + 1) % CIDS;
    }

    method ListAnnounced() returns (listed: seq<Listed>)
      requires Valid()
      ensures listed == Announced(cursors, order)
    {
      listed := [];
      assert order[..0] == [];
      for i := 0 to |order|
        invariant listed == Announced(cursors, order[..i])
      {
        var c := cursors[order[i]];
        assert order[..i + 1][..i] == order[..i];
        if c.announced {
          listed := listed + [Listed(c.cid, c.color, c.name, c.x, c.y)];
        }
      }
      assert order[..|order|] == order;
    }

    method HandleJoin(id: ClientId, color: string, name: string)
      requires GoodCursors(View()) && GoodOrder(order, cursors.Keys) && Enabled(View(), EvJoin(id, color, name))
      modifies this
      ensures View() == OnJoin(old(View()), id, color, name)
    {
      var cid := AllocCid();
      cursors := cursors[id := Cursor(cid, color, name, 0, 0, false, false)];
      order := order + [id];
      var listed := ListAnnounced();
      AddMember(id, Snapshot(cid, color, name, listed));
    }

    /** The room has tracked and subscribed the newcomer before onJoin runs. */
    method AddMember(id: ClientId, snapshot: Message)
      modifies this`members, this`replicas, this`queues
      ensures members == old(members) + {id} && replicas == old(replicas)[id := Replica(None, map[])]
      ensures queues == Broadcast(old(queues)[id := [snapshot]], members, Presence(|members|))
    {
      members := members + {id};
      replicas := replicas[id := Replica(None, map[])];
      queues := queues[id := [snapshot]];
      queues := Broadcast(queues, members, Presence(|members|));
    }

    method HandleMessage(id: ClientId, x: nat, y: nat)
      modifies this
      ensures View() == OnMessage(old(View()), id, x, y)
    {
      if id !in cursors { return; }
      var s := cursors[id];
      s := s.(x := x);
      s := s.(y := y);
      if !s.announced {
        s := s.(announced := true);
        queues := Broadcast(queues, members, Join(Listed(s.cid, s.color, s.name, s.x, s.y)));
      } else {
        s := s.(dirty := true);
      }
      cursors := cursors[id := s];
    }

    method HandleLeave(id: ClientId)
      modifies this
      ensures View() == OnLeave(old(View()), id)
    {
      if id in cursors {
        if cursors[id].announced {
          queues := Broadcast(queues, members, Leave(cursors[id].cid));
        }
        cursors := cursors - {id};
        order := Without(order, id);
      }
      queues := Broadcast(queues, members, Presence(|members|));
    }

    /** One pass over the cursors: collect the moves and clear the dirty flags. */
    method CollectMoves() returns (moves: seq<Move>)
      requires GoodOrder(order, cursors.Keys)
      modifies this`cursors
      ensures moves == Moves(old(cursors), order) && cursors == Clean(old(cursors))
    {
      moves := [];
      assert order[..0] == [];
      for i := 0 to |order|
        invariant moves == Moves(old(cursors), order[..i])
        invariant cursors == CleanAmong(old(cursors), order[..i])
      {
        CollectOneMore(old(cursors), order, i);
        var s := cursors[order[i]];
        if s.dirty {
          moves := moves + [Move(s.cid, s.x, s.y)];
          cursors := cursors[order[i] := s.(dirty := false)];
        }
      }
      assert order[..|order|] == order;
    }

    method HandleTick()
      requires GoodOrder(order, cursors.Keys)
      modifies this
      ensures View() == Tick(old(View()))
    {
      var moves := CollectMoves();
      if |moves| > 0 {
        queues := Broadcast(queues, members, Frame(moves));
      }
    }
  }

  /** One event of the room, whichever it is: the specified step, and the invariant. */
  method Handle(room: Room, e: Event)
    requires Inv(room.View()) && Enabled(room.View(), e)
    requires e.EvJoin? || e.EvMessage? || e.EvLeave? || e.EvTick?
    modifies room
    ensures room.View() == Step(old(room.View()), e) && Inv(room.View())
  {
    StepKeeps(room.View(), e);
    match e {
      case EvJoin(id, color, name) => room.HandleJoin(id, color, name);
      case EvMessage(id, x, y) => room.HandleMessage(id, x, y);
      case EvLeave(id) => room.HandleLeave(id);
      case EvTick => room.HandleTick();
    }
  }

  /** The page: its handler for one message. */
  class Page {
    var me: Option<nat>
    var cursors: map<nat, Shown>

    ghost function View(): Replica
      reads this
    {
      Replica(me, cursors)
    }

    constructor ()
      ensures View() == Replica(None, map[])
    {
      me, cursors := None, map[];
    }

    method OnMessage(m: Message)
      modifies this
      ensures View() == Apply(old(View()), m)
    {
      match m {
        case Snapshot(you, _, _, listed) =>
          me := Some(you);
          var next: map<nat, Shown> := map[];
          assert listed[..0] == [];
          for i := 0 to |listed|
            invariant next == FromSnapshot(listed[..i])
          {
            assert listed[..i + 1][..i] == listed[..i];
            next := next[listed[i].cid := Show(listed[i])];
          }
          assert listed[..|listed|] == listed;
          cursors := next;
        case Join(l) =>
          if me == Some(l.cid) { return; }
          cursors := cursors[l.cid := Show(l)];
        case Frame(moves) =>
          var next: map<nat, Shown> := cursors;
          assert moves[..0] == [];
          for i := 0 to |moves|
            invariant Replica(me, next) == ApplyMoves(Replica(me, cursors), moves[..i])
          {
            assert moves[..i + 1][..i] == moves[..i];
            var mv: Move := moves[i];
            if me != Some(mv.cid) && mv.cid in next {
              next := next[mv.cid := next[mv.cid].(x := DecodeCoord(mv.x), y := DecodeCoord(mv.y))];
            }
          }
          assert moves[..|moves|] == moves;
          cursors := next;
        case Leave(cid) => cursors := cursors - {cid};
        case Presence(_) =>
      }
    }
  }
}
