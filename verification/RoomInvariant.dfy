/** What every step of the room engine keeps, and what that means for a run. */
module RoomInvariant {
  import opened Prelude
  import opened RoomSpec

  ghost function Sum(buffer: seq<Bytes>): nat {
    if buffer == [] then 0 else Sum(buffer[..|buffer| - 1]) + |buffer[|buffer| - 1]|
  }

  /** The reliable user payloads among the frames, in order. */
  ghost function Rel(frames: seq<Frame>): seq<Bytes> {
    if frames == [] then []
    else
      var f := frames[|frames| - 1];
      Rel(frames[..|frames| - 1]) + if f.User? && f.reliable then [f.payload] else []
  }

  /** The reliable messages handed to a socket: those on the wire, then those it lost. */
  ghost function Handed(x: Ws): seq<Bytes> {
    Rel(x.wire) + x.lost
  }

  /** The reliable messages handed to successive sockets. */
  ghost function HandedAll(socks: seq<Sock>, ws: map<Sock, Ws>): seq<Bytes>
    requires forall s :: s in socks ==> s in ws
  {
    if socks == [] then []
    else HandedAll(socks[..|socks| - 1], ws) + Handed(ws[socks[|socks| - 1]])
  }

  // --- the invariant: one clause per client, token, socket and client id ---

  ghost predicate GoodRecord(cfg: Config, r: Tracked) {
    && r.bufferBytes == Sum(r.buffer)
    && r.bufferBytes <= cfg.maxBufferBytes
    && (r.socket.Some? || !r.alive ==> r.buffer == [])
    && (r.timer ==> r.alive && r.socket.None?) && r.strays == 0
    && r.leaves == r.disconnects == (if r.alive then 0 else 1)
    && (r.alive && r.socket.None? ==> r.timer || r.pendingDrops > 0 || r.dropThrew)
  }

  /** A tracked client's socket is its client id's current, subscribed connection. */
  ghost predicate CurrentSocket(w: World, c: ClientId, s: Sock) {
    && s in w.ws && w.ws[s].ready != Closed
    && s in w.conns && w.conns[s] == c
    && c in w.clientSockets && w.clientSockets[c] == s
    && s in w.subs
  }

  /** The sockets a client has had: all its own, the current one last, all others closed. */
  ghost predicate GoodHistory(w: World, c: ClientId, r: Tracked) {
    && (forall s :: s in r.socks ==> s in w.ws && w.ws[s].owner == c)
    && (r.socket.Some? ==> |r.socks| > 0 && r.socks[|r.socks| - 1] == r.socket.value)
    && (r.alive ==>
          forall i :: 0 <= i < |r.socks| && (i < |r.socks| - 1 || r.socket.None?) ==> w.ws[r.socks[i]].ready == Closed)
  }

  /** Reliable messages handed to the client's sockets, then its buffer, are
      exactly the reliable messages addressed to it. */
  ghost predicate InOrder(w: World, c: ClientId, r: Tracked)
    requires GoodHistory(w, c, r)
  {
    HandedAll(r.socks, w.ws) + r.buffer == r.addressed
  }

  ghost predicate GoodClient(cfg: Config, w: World, c: ClientId) {
    && (c in w.clients ==> c in w.records)
    && (c in w.records ==>
          var r := w.records[c];
          && (r.alive <==> c in w.clients)
          && GoodRecord(cfg, r)
          && GoodHistory(w, c, r)
          && (r.alive ==>
                && r.token in w.tokens && w.tokens[r.token] == c
                && (r.socket.Some? ==> CurrentSocket(w, c, r.socket.value))
                && InOrder(w, c, r)))
  }

  /** A token in the index belongs to a tracked client that holds it now. */
  ghost predicate GoodToken(w: World, t: Token) {
    t in w.tokens ==>
      t in w.issued && w.tokens[t] in w.clients && w.tokens[t] in w.records && w.records[w.tokens[t]].token == t
  }

  ghost predicate GoodSock(w: World, s: Sock) {
    && (s in w.subs ==> s in w.conns)
    && (s in w.conns ==> s in w.ws && w.ws[s].ready != Closed && w.ws[s].owner == w.conns[s])
    // an open subscribed socket is some tracked client's current socket
    && (s in w.subs && w.ws[s].ready == Open ==>
          w.conns[s] in w.clients && w.conns[s] in w.records && w.records[w.conns[s]].socket == Some(s))
    && (s in w.pending ==>
          && s in w.conns && w.conns[s] == w.pending[s] && s !in w.subs
          && w.pending[s] !in w.clients
          && Handed(w.ws[s]) == []
          && w.pending[s] in w.clientSockets && w.clientSockets[w.pending[s]] == s)
    // a socket that is still open has lost nothing
    && (s in w.ws && w.ws[s].ready == Open ==> w.ws[s].lost == [])
  }

  ghost predicate GoodName(w: World, c: ClientId) {
    c in w.clientSockets ==> w.clientSockets[c] in w.conns && w.conns[w.clientSockets[c]] == c
  }

  /** Earlier admissions are over: nothing is left of them but settling onDrops. */
  predicate GoodEarlier(w: World, a: Admission) {
    HasEarlier(w, a) && !a.r.alive && !a.r.timer && a.r.strays == 0
  }

  ghost predicate Inv(cfg: Config, w: World) {
    && (forall c {:trigger GoodClient(cfg, w, c)} :: GoodClient(cfg, w, c))
    && (forall t {:trigger GoodToken(w, t)} :: GoodToken(w, t))
    && (forall s {:trigger GoodSock(w, s)} :: GoodSock(w, s))
    && (forall c {:trigger GoodName(w, c)} :: GoodName(w, c))
    && (forall k {:trigger w.earlier[k]} :: 0 <= k < |w.earlier| ==> GoodEarlier(w, w.earlier[k]))
    && (w.stopped ==> !w.alive && w.clients == {} && w.pending == map[])
  }

  lemma InvIsGrounded(cfg: Config, w: World)
    requires Inv(cfg, w)
    ensures Grounded(w)
  {
    forall c | c in w.clients ensures c in w.records { assert GoodClient(cfg, w, c); }
    forall c | c in w.records ensures HasSocket(w, c) { assert GoodClient(cfg, w, c); }
    forall s | s in w.pending ensures s in w.ws { assert GoodSock(w, s); }
  }

  // --- facts about handed messages ---

  lemma RelAppend(frames: seq<Frame>, f: Frame)
    ensures Rel(frames + [f]) == Rel(frames) + if f.User? && f.reliable then [f.payload] else []
  {
    assert (frames + [f])[..|frames|] == frames;
  }

  lemma {:induction false} RelFlush(frames: seq<Frame>, buffer: seq<Bytes>)
    ensures Rel(frames + Frames(buffer)) == Rel(frames) + buffer
    decreases |buffer|
  {
    if buffer == [] {
      assert frames + Frames(buffer) == frames;
      assert Rel(frames) + buffer == Rel(frames);
    } else {
      var n := |buffer| - 1;
      RelFlush(frames, buffer[..n]);
      assert frames + Frames(buffer) == (frames + Frames(buffer[..n])) + [User(buffer[n], true)];
      RelAppend(frames + Frames(buffer[..n]), User(buffer[n], true));
      assert buffer == buffer[..n] + [buffer[n]];
      assert Rel(frames) + buffer == Rel(frames) + buffer[..n] + [buffer[n]];
    }
  }

  lemma HandedAfterSend(x: Ws, f: Frame)
    requires x.ready == Open ==> x.lost == []
    ensures Handed(SendWs(x, f)) == Handed(x) + if f.User? && f.reliable then [f.payload] else []
  {
    RelAppend(x.wire, f);
  }

  lemma HandedAfterFlush(x: Ws, buffer: seq<Bytes>)
    requires x.ready == Open ==> x.lost == []
    ensures Handed(Flush(x, buffer)) == Handed(x) + buffer
  {
    RelFlush(x.wire, buffer);
  }

  /** What was handed depends only on the sockets concerned. */
  lemma {:induction false} HandedAllFrame(socks: seq<Sock>, ws: map<Sock, Ws>, ws': map<Sock, Ws>)
    requires forall s :: s in socks ==> s in ws && s in ws' && Handed(ws[s]) == Handed(ws'[s])
    ensures HandedAll(socks, ws) == HandedAll(socks, ws')
    decreases |socks|
  {
    if socks != [] {
      HandedAllFrame(socks[..|socks| - 1], ws, ws');
    }
  }

  lemma HandedAllLast(socks: seq<Sock>, s: Sock, ws: map<Sock, Ws>)
    requires s in ws && forall t :: t in socks ==> t in ws
    ensures HandedAll(socks + [s], ws) == HandedAll(socks, ws) + Handed(ws[s])
  {
    assert (socks + [s])[..|socks|] == socks;
  }

  lemma SumAppend(buffer: seq<Bytes>, p: Bytes)
    ensures Sum(buffer + [p]) == Sum(buffer) + |p|
  {
    assert (buffer + [p])[..|buffer|] == buffer;
  }
}
