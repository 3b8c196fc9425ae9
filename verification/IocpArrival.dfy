/**
 What the system can do, and that it gets somewhere: pending operations complete as the calls promise, and what a
 peer sends does reach the callback of its connection.
 */
module IocpArrival {
  import opened Prelude
  import opened IocpModel
  import opened IocpInvariant
  import opened IocpOwnership
  import opened IocpWorkerSteps
  import opened IocpTableSteps
  import opened IocpSystemSteps
  import opened IocpProgress
  import opened IocpTheorems

  /** The peer at the other end of the socket of context `c`. */
  ghost predicate PeerIs(s: State, c: CtxId, q: PeerId) {
    && c in s.ctxs && s.ctxs[c].socket.Some? && s.ctxs[c].socket.value in s.peerOf
    && s.peerOf[s.ctxs[c].socket.value] == q && q < |s.peers| && s.peers[q].taken <= |s.peers[q].stream|
  }

  // ---- Completions

  lemma ReceivePending(s: State, i: nat) returns (q: PeerId)
    requires Inv(s) && i < |s.kernel| && s.kernel[i].op.RecvOp?
    ensures var c := s.kernel[i].ov;
      && PeerIs(s, c, q) && |s.ctxs[c].buffer| == 4096 && s.kernel[i].key == c
      && s.kernel[i].op == RecvOp(s.ctxs[c].socket.value, 4096)
  {
    assert PendingOk(s, s.kernel[i]) && PeersOk(s);
    hide Inv;
    q := PendingPeer(s, s.kernel[i]);
  }

  lemma PendingPeer(s: State, p: Pending) returns (q: PeerId)
    requires PendingOk(s, p) && PeersOk(s) && p.op.RecvOp?
    ensures PeerIs(s, p.ov, q) && |s.ctxs[p.ov].buffer| == 4096 && p.key == p.ov
    ensures p.op == RecvOp(s.ctxs[p.ov].socket.value, 4096)
  {
    q := s.peerOf[s.ctxs[p.ov].socket.value];
  }

  lemma ReceiveSteps(s: State, i: nat, m: nat, q: PeerId)
    requires i < |s.kernel| && var c := s.kernel[i].ov;
      && PeerIs(s, c, q) && |s.ctxs[c].buffer| == 4096 && s.kernel[i].key == c
      && s.kernel[i].op == RecvOp(s.ctxs[c].socket.value, 4096)
    ensures Step(s, KernelRecv(i, m)).Some? <==> 1 <= m <= 4096 && m <= |s.peers[q].stream| - s.peers[q].taken
    ensures Step(s, KernelRecv(i, m)).Some? ==>
      var c, p, s' := s.kernel[i].ov, s.peers[q], Step(s, KernelRecv(i, m)).value;
      && c in s'.ctxs && |s'.ctxs[c].buffer| == 4096 && s'.ctxs[c].buffer[..m] == p.stream[p.taken..p.taken + m]
      && s'.ctxs == s.ctxs[c := s.ctxs[c].(buffer := s'.ctxs[c].buffer)]
      && s' == s.(ctxs := s'.ctxs, peers := s.peers[q := p.(taken := p.taken + m)],
                  kernel := RemoveAt(s.kernel, i), queue := s.queue + [Completion(c, c, true, m)])
  {
  }

  /**
   A pending receive completes with any number of bytes that the peer has sent and that were not received yet,
   up to the 4096 asked for, and with the next ones; or without bytes, when the peer closes or on an error.
   */
  lemma ReceiveCompletes(n: nat, s: State, i: nat, m: nat) returns (q: PeerId)
    requires Reachable(n, s) && i < |s.kernel| && s.kernel[i].op.RecvOp?
    ensures PeerIs(s, s.kernel[i].ov, q)
    ensures Step(s, KernelRecv(i, m)).Some? <==> 1 <= m <= 4096 && m <= |s.peers[q].stream| - s.peers[q].taken
    ensures Step(s, KernelRecv(i, m)).Some? ==>
      var c, p, s' := s.kernel[i].ov, s.peers[q], Step(s, KernelRecv(i, m)).value;
      && c in s'.ctxs && |s'.ctxs[c].buffer| == 4096 && s'.ctxs[c].buffer[..m] == p.stream[p.taken..p.taken + m]
      && s'.peers == s.peers[q := p.(taken := p.taken + m)]
      && s'.kernel == RemoveAt(s.kernel, i) && s'.queue == s.queue + [Completion(c, c, true, m)]
    ensures forall ok :: Step(s, KernelRecvEnd(i, ok)) == Some(
      s.(kernel := RemoveAt(s.kernel, i), queue := s.queue + [Completion(s.kernel[i].ov, s.kernel[i].ov, ok, 0)]))
  {
    hide Reachable, Inv;
    ReachableInv(n, s);
    q := ReceivePending(s, i);
    ReceiveSteps(s, i, m, q);
  }

  lemma AcceptPending(s: State, i: nat)
    requires Inv(s) && i < |s.kernel| && s.kernel[i].op.AcceptOp?
    ensures var l, h := s.kernel[i].ov, s.kernel[i].op.sock;
      && s.listener == Some(l) && l in s.ctxs && s.ctxs[l].accepted == Some(h) && |s.ctxs[l].buffer| == 4096
      && h in s.open && h !in s.peerOf && s.kernel[i].key == l
  {
    assert PendingOk(s, s.kernel[i]) && ListenerOk(s);
  }

  lemma AcceptSteps(s: State, i: nat, stream: Bytes, m: nat)
    requires i < |s.kernel| && s.kernel[i].op.AcceptOp?
    requires var l, h := s.kernel[i].ov, s.kernel[i].op.sock;
      l in s.ctxs && |s.ctxs[l].buffer| == 4096 && h in s.open && h !in s.peerOf && s.kernel[i].key == l
    ensures Step(s, KernelAccept(i, stream, m)).Some? <==> m <= 3808 && m <= |stream|
    ensures Step(s, KernelAccept(i, stream, m)).Some? ==>
      var l, h, s' := s.kernel[i].ov, s.kernel[i].op.sock, Step(s, KernelAccept(i, stream, m)).value;
      && l in s'.ctxs && s'.ctxs[l].buffer[..m] == stream[..m]
      && s'.peers == s.peers + [Peer(stream, m, None)] && s'.peerOf == s.peerOf[h := |s.peers|]
      && s'.kernel == RemoveAt(s.kernel, i) && s'.queue == s.queue + [Completion(l, l, true, m)]
    ensures Step(s, KernelAcceptFail(i)) == Some(
      s.(kernel := RemoveAt(s.kernel, i), queue := s.queue + [Completion(s.kernel[i].ov, s.kernel[i].ov, false, 0)]))
  {
  }

  /**
   A pending AcceptEx completes with any client, whose first bytes, as many as fit beside the two addresses, are
   in the buffer of the listening context; or it fails.
   */
  lemma AcceptCompletes(n: nat, s: State, i: nat, stream: Bytes, m: nat)
    requires Reachable(n, s) && i < |s.kernel| && s.kernel[i].op.AcceptOp?
    ensures s.listener == Some(s.kernel[i].ov) && s.kernel[i].ov in s.ctxs
    ensures s.ctxs[s.kernel[i].ov].accepted == Some(s.kernel[i].op.sock)
    ensures Step(s, KernelAccept(i, stream, m)).Some? <==> m <= 3808 && m <= |stream|
    ensures Step(s, KernelAccept(i, stream, m)).Some? ==>
      var l, h, s' := s.kernel[i].ov, s.kernel[i].op.sock, Step(s, KernelAccept(i, stream, m)).value;
      && l in s'.ctxs && s'.ctxs[l].buffer[..m] == stream[..m]
      && s'.peers == s.peers + [Peer(stream, m, None)] && s'.peerOf == s.peerOf[h := |s.peers|]
      && s'.kernel == RemoveAt(s.kernel, i) && s'.queue == s.queue + [Completion(l, l, true, m)]
    ensures Step(s, KernelAcceptFail(i)) == Some(
      s.(kernel := RemoveAt(s.kernel, i), queue := s.queue + [Completion(s.kernel[i].ov, s.kernel[i].ov, false, 0)]))
  {
    hide Reachable, Inv, Step;
    ReachableInv(n, s);
    AcceptPending(s, i);
    AcceptSteps(s, i, stream, m);
  }

  // ---- What a peer sends arrives

  lemma Append(n: nat, h: History, l: Label) returns (h': History)
    requires Execution(n, h) && Step(Last(h), l).Some?
    ensures Execution(n, h') && Last(h') == Step(Last(h), l).value
    ensures h.states <= h'.states && h.labels <= h'.labels && |h'.labels| == |h.labels| + 1
  {
    hide Step;
    h' := Extended(h, l, Step(Last(h), l).value);
    ExtendExecution(n, h, l, Step(Last(h), l).value);
  }

  lemma AppendThree(n: nat, h: History, l: Label, t: State, u: State, v: State) returns (h': History)
    requires Execution(n, h) && Step(Last(h), l) == Some(t) && Step(t, l) == Some(u) && Step(u, l) == Some(v)
    ensures Execution(n, h') && Last(h') == v
    ensures h.states <= h'.states && h.labels <= h'.labels && |h'.labels| == |h.labels| + 3
  {
    hide Step, Execution;
    h' := Append(n, h, l);
    h' := Append(n, h', l);
    h' := Append(n, h', l);
  }

  lemma TakesAndDispatches(s: State, w: nat, p: Packet) returns (t: State, u: State, v: State)
    requires w < |s.workers| && s.workers[w] == Idle && s.queue == [p] && s.running && !s.exiting
    ensures Step(s, Work(w, FINE)) == Some(t) && Step(t, Work(w, FINE)) == Some(u) && Step(u, Work(w, FINE)) == Some(v)
    ensures v == To(s, w, DispatchTo(s, p)).(queue := [])
  {
    t := To(s, w, Dequeued(p)).(queue := []);
    u := To(s, w, Dispatching(p)).(queue := []);
    v := To(s, w, DispatchTo(s, p)).(queue := []);
    assert s.queue[1..] == [];
    assert Step(s, Work(w, FINE)) == Some(t);
    assert To(t, w, Dispatching(p)) == u;
    assert To(u, w, DispatchTo(u, p)) == v;
  }

  /** The lookup, the fetch and the callback, for a context whose socket is mapped to connection object `k`. */
  lemma LooksUpAndDelivers(s: State, w: nat, c: CtxId, m: nat, k: ConnId) returns (t: State, u: State, v: State)
    requires w < |s.workers| && s.workers[w] == RcvCount(c, c, m) && c in s.ctxs && m <= |s.ctxs[c].buffer|
    requires s.ctxs[c].socket.Some? && EntryAt(s, s.ctxs[c].socket.value) == Some(Some(k)) && k < |s.objs|
    ensures Step(s, Work(w, FINE)) == Some(t) && Step(t, Work(w, FINE)) == Some(u) && Step(u, Work(w, FINE)) == Some(v)
    ensures |v.workers| == |s.workers| && v.workers[w] == RcvPost(c, c)
    ensures v.objs == s.objs[k := s.objs[k].(delivered := s.objs[k].delivered + s.ctxs[c].buffer[..m])]
  {
    t := To(s, w, RcvFetch(c, c, m));
    u := To(s, w, RcvDeliver(c, c, m, k));
    assert To(t, w, RcvDeliver(c, c, m, k)) == u;
    v := To(u, w, RcvPost(c, c))
         .(objs := s.objs[k := s.objs[k].(delivered := s.objs[k].delivered + s.ctxs[c].buffer[..m])]);
  }

  lemma Sends(s: State, i: nat, q: PeerId, data: Bytes) returns (t: State)
    requires i < |s.kernel| && PeerIs(s, s.kernel[i].ov, q) && s.peers[q].taken == |s.peers[q].stream|
    ensures Step(s, PeerSend(q, data)) == Some(t)
    ensures t.kernel == s.kernel && t.ctxs == s.ctxs && t.queue == s.queue && PeerIs(t, s.kernel[i].ov, q)
    ensures t.peers[q].taken == s.peers[q].taken && t.peers[q].stream[t.peers[q].taken..] == data
  {
    t := Step(s, PeerSend(q, data)).value;
  }

  /** What a peer sends when all before has been received is what the pending receive puts into its buffer. */
  lemma SentIsReceived(n: nat, h: History, i: nat, q: PeerId, data: Bytes) returns (all: History)
    requires Execution(n, h) && i < |Last(h).kernel| && Last(h).kernel[i].op.RecvOp? && 1 <= |data| <= 4096
    requires PeerIs(Last(h), Last(h).kernel[i].ov, q) && Last(h).peers[q].taken == |Last(h).peers[q].stream|
    ensures Execution(n, all) && h.states <= all.states && h.labels <= all.labels
    ensures var c, s := Last(h).kernel[i].ov, Last(all);
      && c in s.ctxs && |s.ctxs[c].buffer| == 4096 && s.ctxs[c].buffer[..|data|] == data
      && s.queue == Last(h).queue + [Completion(c, c, true, |data|)]
  {
    hide Inv, Step, Initial;
    var s := Last(h);
    ExecutionKeepsInv(n, h, |h.labels|);
    var q' := ReceivePending(s, i);
    var t := Sends(s, i, q, data);
    ReceiveSteps(t, i, |data|, q);
    assert t.peers[q].stream[t.peers[q].taken..t.peers[q].taken + |data|] == data;
    all := Append(n, h, PeerSend(q, data));
    all := Append(n, all, KernelRecv(i, |data|));
  }

  /** Connection object `k` is the one of context `c`, whose receive is armed. */
  lemma PendingConnection(s: State, p: Pending) returns (k: ConnId)
    requires PendingOk(s, p) && p.op.RecvOp?
    ensures p.ov in s.ctxs && s.ctxs[p.ov].socket.Some? && s.ctxs[p.ov].tag == IOReceive
    ensures EntryAt(s, s.ctxs[p.ov].socket.value) == Some(Some(k)) && k < |s.objs|
  {
    k := s.conns[s.ctxs[p.ov].socket.value].value;
  }

  lemma ServerRuns(s: State, i: nat)
    requires Inv(s) && i < |s.kernel|
    ensures s.running
  {
    if s.listener == None {
      NothingYet(s);
    }
  }

  lemma PendingFact(s: State, i: nat)
    requires Inv(s) && i < |s.kernel|
    ensures PendingOk(s, s.kernel[i]) && PeersOk(s)
  {
  }

  /**
   Received bytes reach the callback: with the server running, the queue empty, worker `w` idle and a receive
   pending whose peer has `m` more bytes, the completion and six steps of the worker give the connection exactly
   the next `m` bytes.
   */
  lemma BytesDelivered(n: nat, h: History, i: nat, m: nat, w: nat) returns (all: History, q: PeerId, k: ConnId)
    requires Execution(n, h) && !Last(h).exiting && Last(h).queue == []
    requires w < |Last(h).workers| && Last(h).workers[w] == Idle
    requires i < |Last(h).kernel| && Last(h).kernel[i].op.RecvOp?
    requires forall q: PeerId :: PeerIs(Last(h), Last(h).kernel[i].ov, q) ==>
      1 <= m <= 4096 && m <= |Last(h).peers[q].stream| - Last(h).peers[q].taken
    ensures Execution(n, all) && h.states <= all.states && h.labels <= all.labels && |all.labels| == |h.labels| + 7
    ensures var s := Last(h);
      && PeerIs(s, s.kernel[i].ov, q)
      && EntryAt(s, s.ctxs[s.kernel[i].ov].socket.value) == Some(Some(k)) && k < |s.objs| == |Last(all).objs|
      && var p := s.peers[q];
         Last(all).objs[k].delivered == s.objs[k].delivered + p.stream[p.taken..p.taken + m]
  {
    hide Inv, Step, Initial, PendingOk, StepAt;
    var s := Last(h);
    var c := s.kernel[i].ov;
    ExecutionKeepsInv(n, h, |h.labels|);
    PendingFact(s, i);
    ServerRuns(s, i);
    q := ReceivePending(s, i);
    k := PendingConnection(s, s.kernel[i]);
    ReceiveSteps(s, i, m, q);
    var s1 := Step(s, KernelRecv(i, m)).value;
    var p := Completion(c, c, true, m);
    assert s1.queue == [p];
    var t, u, v := TakesAndDispatches(s1, w, p);
    assert v.workers[w] == RcvCount(c, c, m);
    var t', u', v' := LooksUpAndDelivers(v, w, c, m, k);
    all := Append(n, h, KernelRecv(i, m));
    all := AppendThree(n, all, Work(w, FINE), t, u, v);
    all := AppendThree(n, all, Work(w, FINE), t', u', v');
  }
}
