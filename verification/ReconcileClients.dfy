/** Bringing the driver's client records in line with a room's own list
    (src/server/server.ts, reconcileClients). */
module ReconcileClients {
  import opened Prelude
  import opened Store
  import opened MemoryDriver

  /** One entry of the list in a room's heartbeat. */
  datatype Reported = Reported(clientId: Id, tags: Tags)

  function ReportedIds(list: seq<Reported>): set<Id> {
    set i | 0 <= i < |list| :: list[i].clientId
  }

  predicate IsConnected(clients: map<Id, Client>, c: Id) {
    c in clients && clients[c].status == Connected
  }

  /** Connects every listed client that the snapshot does not show as connected. */
  function ConnectMissing(st: Store, before: map<Id, Client>, roomId: Id, list: seq<Reported>, now: int): Store {
    if list == [] then st
    else
      var n := |list| - 1;
      var st1 := ConnectMissing(st, before, roomId, list[..n], now);
      if IsConnected(before, list[n].clientId) then st1
      else ConnectClient(st1, list[n].clientId, roomId, list[n].tags, now)
  }

  /** Connected when the list was drawn up, by the driver's account, but not on it. */
  predicate Vanished(before: map<Id, Client>, ids: set<Id>, timestamp: int, c: Id) {
    IsConnected(before, c) && c !in ids && before[c].connectedAt < timestamp
  }

  function VanishedIds(before: map<Id, Client>, ids: set<Id>, timestamp: int): set<Id> {
    set c | c in before && Vanished(before, ids, timestamp, c)
  }

  function Reconciled(st: Store, roomId: Id, list: seq<Reported>, timestamp: int, now: int): Store {
    if roomId !in st.rooms then st
    else
      var before := ClientsOf(st, roomId);
      var st1 := ConnectMissing(st, before, roomId, list, now);
      st1.(clients := st1.clients - VanishedIds(before, ReportedIds(list), timestamp))
  }

  lemma ConnectOneMore(st: Store, before: map<Id, Client>, roomId: Id, list: seq<Reported>, now: int, i: nat)
    requires i < |list|
    ensures ConnectMissing(st, before, roomId, list[..i + 1], now) ==
      var st1 := ConnectMissing(st, before, roomId, list[..i], now);
      if IsConnected(before, list[i].clientId) then st1
      else ConnectClient(st1, list[i].clientId, roomId, list[i].tags, now)
  {
    assert list[..i + 1][..i] == list[..i];
  }

  /** The two loops of the source, against the in-memory driver. */
  method Reconcile(d: Driver, roomId: Id, list: seq<Reported>, timestamp: int, now: int)
    modifies d
    ensures d.View() == Reconciled(Sweep(old(d.View()), now), roomId, list, timestamp, now)
  {
    var info := d.GetRoomInfo(roomId, now);
    if info == None { return; }
    ghost var st := d.View();
    var before := info.value.1;
    ConnectListed(d, before, roomId, list, now);
    DisconnectVanished(d, before, ReportedIds(list), timestamp);
  }

  method ConnectListed(d: Driver, before: map<Id, Client>, roomId: Id, list: seq<Reported>, now: int)
    modifies d`clients
    ensures d.View() == ConnectMissing(old(d.View()), before, roomId, list, now)
  {
    var i := 0;
    while i < |list|
      invariant 0 <= i <= |list|
      invariant d.View() == ConnectMissing(old(d.View()), before, roomId, list[..i], now)
    {
      ConnectOneMore(old(d.View()), before, roomId, list, now, i);
      if list[i].clientId !in before || before[list[i].clientId].status != Connected {
        d.Connect(list[i].clientId, roomId, list[i].tags, now);
      }
      i := i + 1;
    }
    assert list[..i] == list;
  }

  method DisconnectVanished(d: Driver, before: map<Id, Client>, ids: set<Id>, timestamp: int)
    modifies d`clients
    ensures d.clients == old(d.clients) - VanishedIds(before, ids, timestamp)
  {
    var todo := before.Keys;
    ghost var gone: set<Id> := {};
    while todo != {}
      invariant todo <= before.Keys
      invariant forall c :: c in gone <==> c in before && c !in todo && Vanished(before, ids, timestamp, c)
      invariant d.clients == old(d.clients) - gone
      decreases todo
    {
      var c :| c in todo;
      if before[c].status == Connected && c !in ids && before[c].connectedAt < timestamp {
        d.Disconnect(c);
        gone := gone + {c};
      }
      todo := todo - {c};
    }
    assert gone == VanishedIds(before, ids, timestamp);
  }

  lemma ReportedOneMore(list: seq<Reported>)
    requires list != []
    ensures ReportedIds(list) == ReportedIds(list[..|list| - 1]) + {list[|list| - 1].clientId}
  {
    var n := |list| - 1;
    assert list == list[..n] + [list[n]];
    forall i | 0 <= i < n ensures list[i].clientId in ReportedIds(list[..n]) { assert list[..n][i] == list[i]; }
  }

  // --- what the room's clients are afterwards ---

  lemma {:induction false} ConnectMissingAt(st: Store, before: map<Id, Client>, roomId: Id, list: seq<Reported>,
                                            now: int, c: Id)
    ensures var st' := ConnectMissing(st, before, roomId, list, now);
      && st'.rooms == st.rooms && st'.servers == st.servers
      && (c in ReportedIds(list) && !IsConnected(before, c) ==>
            c in st'.clients && st'.clients[c].roomId == roomId && st'.clients[c].status == Connected)
      && (c !in ReportedIds(list) || IsConnected(before, c) ==>
            (c in st'.clients <==> c in st.clients) && (c in st.clients ==> st'.clients[c] == st.clients[c]))
    decreases |list|
  {
    if list != [] {
      var n := |list| - 1;
      ConnectMissingAt(st, before, roomId, list[..n], now, c);
      ReportedOneMore(list);
    }
  }

  /** A client's record afterwards: a listed one is connected here; a vanished
      one is gone; every other record, reservations included, is as before. */
  lemma ReconciledAt(st: Store, roomId: Id, list: seq<Reported>, timestamp: int, now: int, c: Id)
    requires roomId in st.rooms
    ensures var st' := Reconciled(st, roomId, list, timestamp, now); var before := ClientsOf(st, roomId);
      && (c in ReportedIds(list) ==>
        c in st'.clients && st'.clients[c].roomId == roomId && st'.clients[c].status == Connected)
      && (c in ReportedIds(list) && IsConnected(before, c) ==> st'.clients[c] == st.clients[c])
      && (Vanished(before, ReportedIds(list), timestamp, c) ==> c !in st'.clients)
      && (c !in ReportedIds(list) && !Vanished(before, ReportedIds(list), timestamp, c) ==>
            (c in st'.clients <==> c in st.clients) && (c in st.clients ==> st'.clients[c] == st.clients[c]))
  {
    ConnectMissingAt(st, ClientsOf(st, roomId), roomId, list, now, c);
  }

  /** Exactly the listed clients are connected, and those that connected after
      the list was drawn up. */
  lemma ConnectedAfterwards(st: Store, roomId: Id, list: seq<Reported>, timestamp: int, now: int, c: Id)
    requires roomId in st.rooms
    ensures var before := ClientsOf(st, roomId);
      IsConnected(ClientsOf(Reconciled(st, roomId, list, timestamp, now), roomId), c) <==>
      c in ReportedIds(list) || (IsConnected(before, c) && before[c].connectedAt >= timestamp)
  {
    ReconciledAt(st, roomId, list, timestamp, now, c);
  }

  predicate OtherRoomsUntouched(st: Store, st': Store, roomId: Id) {
    forall c <- st.clients :: st.clients[c].roomId != roomId ==> c in st'.clients && st'.clients[c] == st.clients[c]
  }

  /** The upsert does not look where a client is recorded: the records of other
      rooms are left alone exactly when the list names none of their clients. */
  lemma OtherRoomsUntouchedIff(st: Store, roomId: Id, list: seq<Reported>, timestamp: int, now: int)
    requires roomId in st.rooms
    ensures OtherRoomsUntouched(st, Reconciled(st, roomId, list, timestamp, now), roomId) <==>
      forall c <- ReportedIds(list) :: c in st.clients ==> st.clients[c].roomId == roomId
  {
    var st' := Reconciled(st, roomId, list, timestamp, now);
    forall c <- st.clients ensures
      st.clients[c].roomId != roomId ==>
        (c in ReportedIds(list) <==> !(c in st'.clients && st'.clients[c] == st.clients[c]))
    {
      ReconciledAt(st, roomId, list, timestamp, now, c);
    }
  }

  /** Reconciling again with the same list changes nothing. */
  lemma SecondRunChangesNothing(st: Store, roomId: Id, list: seq<Reported>, timestamp: int, now: int, later: int)
    ensures var st' := Reconciled(st, roomId, list, timestamp, now);
      Reconciled(st', roomId, list, timestamp, later) == st'
  {
    var st' := Reconciled(st, roomId, list, timestamp, now);
    if roomId in st.rooms {
      ConnectMissingAt(st, ClientsOf(st, roomId), roomId, list, now, "");
      var st'' := Reconciled(st', roomId, list, timestamp, later);
      ConnectMissingAt(st', ClientsOf(st', roomId), roomId, list, later, "");
      forall c
        ensures c in st''.clients <==> c in st'.clients
        ensures c in st'.clients ==> st''.clients[c] == st'.clients[c]
      {
        ReconciledAt(st, roomId, list, timestamp, now, c);
        ReconciledAt(st', roomId, list, timestamp, later, c);
      }
      assert st''.clients == st'.clients;
    }
  }
}
