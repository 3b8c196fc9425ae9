/** The steps of a worker that change the tables keep the invariant. */
module IocpTableSteps {
  import opened Prelude
  import opened IocpModel
  import opened IocpInvariant
  import opened IocpOwnership
  import opened IocpWorkerSteps

  lemma WorkerFact(s: State, w: nat)
    requires Inv(s) && w < |s.workers|
    ensures WorkerOk(s, s.workers[w]) && Tables(s)
  {
  }

  lemma TablesSay(s: State)
    requires Tables(s)
    ensures LockerOk(s) && ListenerOk(s) && KeysOk(s)
  {
  }

  /** Whoever accepts a connection, or goes back to it from disconnect, has the listening context. */
  lemma AcceptingIsListener(s: State, wk: Worker)
    requires WorkerOk(s, wk)
    ensures Accepting(wk) ==> IsListener(s, wk.a)
    ensures wk.Disc? && wk.back.Some? ==> IsListener(s, wk.back.value)
  {
  }

  /** Two live contexts never share a socket. */
  lemma SocketsDiffer(s: State, c: CtxId, d: CtxId)
    requires KeysOk(s) && c in s.ctxs && d in s.ctxs && c != d
    requires s.ctxs[c].socket.Some? && s.ctxs[d].socket.Some?
    ensures s.ctxs[c].socket.value != s.ctxs[d].socket.value
  {
  }

  lemma ObjsKept(s: State, s': State)
    requires ObjsOk(s) && s'.objs == s.objs && s'.peers == s.peers
    ensures ObjsOk(s')
  {
    forall k | 0 <= k < |s'.objs| ensures ObjOk(s', k) {
      assert ObjOk(s, k);
    }
  }

  // ---- socket_contexts_.push_front

  lemma AccListDisturbs(s: State, s': State, w: nat, a: CtxId, n: nat, c: CtxId)
    requires w < |s.workers| && s.workers[w] == AccList(a, n, c)
    requires s' == To(s, w, AccMap(a, n, c)).(list := [c] + s.list)
    ensures DisturbsOnly(s, s', w)
  {
    forall d | d in s.ctxs && HeldCount(s.workers[w], d) == 0 ensures Same(s, s', d) {
    }
  }

  lemma AccListHands(s: State, s': State, w: nat, a: CtxId, n: nat, c: CtxId)
    requires w < |s.workers| && WorkerOk(s, AccList(a, n, c))
    requires s' == To(s, w, AccMap(a, n, c)).(list := [c] + s.list)
    ensures WorkerOk(s', AccMap(a, n, c))
  {
    assert LookAt(s', s.ctxs[c].socket.value) == LookAt(s, s.ctxs[c].socket.value);
  }

  lemma AccListTables(s: State, s': State, w: nat, a: CtxId, n: nat, c: CtxId)
    requires w < |s.workers| && WorkerOk(s, AccList(a, n, c)) && Tables(s)
    requires s' == To(s, w, AccMap(a, n, c)).(list := [c] + s.list)
    ensures ListenerOk(s') && KeysOk(s') && PeersOk(s') && ConnsOk(s') && ObjsOk(s') && ListOk(s')
  {
    ObjsKept(s, s');
  }

  lemma AccListMoves(s: State, s': State, w: nat, a: CtxId, n: nat, c: CtxId)
    requires w < |s.workers| && s.workers[w] == AccList(a, n, c) && WorkerOk(s, s.workers[w]) && Tables(s)
    requires s' == To(s, w, AccMap(a, n, c)).(list := [c] + s.list)
    ensures LoudMove(s, s', w, [], [])
  {
    hide WorkerOk, ListenerOk, KeysOk, PeersOk, ConnsOk, ObjsOk, ListOk, LockerOk, DisturbsOnly;
    assert s'.dropped == s.dropped + [];
    assert s'.kernel == s.kernel + [];
    AccListDisturbs(s, s', w, a, n, c);
    AccListHands(s, s', w, a, n, c);
    AccListTables(s, s', w, a, n, c);
    LockerAfterWorker(s, s', w, [], []);
  }

  // ---- onDataReceived and onDisconnected: one connection object changes

  /** Step `s'` replaces connection object `k`, the one of context `c`, and moves worker `w`. */
  ghost predicate ObjectStep(s: State, s': State, w: nat, c: CtxId, k: ConnId, o: Conn) {
    && w < |s.workers| && |s'.workers| == |s.workers|
    && c in s.ctxs && s.ctxs[c].socket.Some?
    && EntryAt(s, s.ctxs[c].socket.value) == Some(Some(k)) && k < |s.objs|
    && o.socket == s.objs[k].socket && o.peer == s.objs[k].peer
    && s' == To(s, w, s'.workers[w]).(objs := s.objs[k := o])
  }

  lemma ObjectSame(s: State, s': State, w: nat, c: CtxId, k: ConnId, o: Conn, d: CtxId)
    requires ObjectStep(s, s', w, c, k, o) && KeysOk(s) && ConnsOk(s) && d in s.ctxs && d != c
    ensures Same(s, s', d)
  {
    if s.listener == Some(d) {
      var x := s.ctxs[d];
      if x.accepted.Some? && x.accepted.value !in s.keyOf {
        assert LookAt(s', x.accepted.value) == LookAt(s, x.accepted.value);
      }
    } else if s.ctxs[d].socket.Some? {
      var sk := s.ctxs[d].socket.value;
      SocketsDiffer(s, c, d);
      assert sk in s.conns && s.conns[sk].Some? ==> s.conns[sk].value != k;
      assert LookAt(s', sk) == LookAt(s, sk);
    }
  }

  /** The changed view of the context whose object it is. */
  lemma ObjectLook(s: State, s': State, w: nat, c: CtxId, k: ConnId, o: Conn)
    requires ObjectStep(s, s', w, c, k, o)
    ensures Look(s, c).View? && Look(s, c).sock.Some?
    ensures Look(s', c) == Look(s, c).(sock := Some(Look(s, c).sock.value.(obj := Some(o))))
  {
  }

  /** Object `o` is consistent with its peer: a prefix of the stream, and all that was copied once it is closed. */
  ghost predicate ObjectFits(s: State, o: Conn) {
    && o.peer < |s.peers| && o.delivered <= s.peers[o.peer].stream && o.closed <= 1
    && (o.closed == 1 ==> o.delivered == GotOf(s.peers[o.peer]))
  }

  lemma ObjectObjs(s: State, s': State, w: nat, c: CtxId, k: ConnId, o: Conn)
    requires ObjectStep(s, s', w, c, k, o) && ObjsOk(s)
    requires ObjectFits(s, o)
    ensures ObjsOk(s')
  {
    forall j | 0 <= j < |s'.objs| ensures ObjOk(s', j) {
      assert ObjOk(s, j);
    }
  }

  lemma ObjectNames(s: State, s': State, w: nat, c: CtxId, k: ConnId, o: Conn)
    requires ObjectStep(s, s', w, c, k, o) && Tables(s)
    ensures ListenerOk(s') && KeysOk(s') && PeersOk(s') && ConnsOk(s') && ListOk(s')
  {
    hide ObjsOk, LockerOk, MainPhaseOk;
  }

  lemma ObjectTables(s: State, s': State, w: nat, c: CtxId, k: ConnId, o: Conn)
    requires ObjectStep(s, s', w, c, k, o) && Tables(s)
    requires ObjectFits(s, o)
    requires Inside(s'.workers[w]) == Inside(s.workers[w])
    ensures ListenerOk(s') && KeysOk(s') && PeersOk(s') && ConnsOk(s') && ObjsOk(s') && ListOk(s') && LockerOk(s')
  {
    hide ObjsOk, LockerOk, ObjectFits, MainPhaseOk;
    ObjectObjs(s, s', w, c, k, o);
    ObjectNames(s, s', w, c, k, o);
    hide ListenerOk, KeysOk, PeersOk, ConnsOk, ListOk;
    assert s'.dropped == s.dropped + [];
    assert s'.kernel == s.kernel + [];
    LockerAfterWorker(s, s', w, [], []);
  }

  lemma ObjectMoves(s: State, s': State, w: nat, c: CtxId, k: ConnId, o: Conn)
    requires ObjectStep(s, s', w, c, k, o) && Tables(s) && HeldCount(s.workers[w], c) > 0
    requires ObjectFits(s, o)
    requires Inside(s'.workers[w]) == Inside(s.workers[w])
    requires forall d: CtxId :: HeldCount(s'.workers[w], d) == HeldCount(s.workers[w], d)
    requires WorkerOk(s', s'.workers[w])
    ensures LoudMove(s, s', w, [], [])
  {
    assert s'.dropped == s.dropped + [];
    assert s'.kernel == s.kernel + [];
    forall d | d in s.ctxs && HeldCount(s.workers[w], d) == 0 ensures Same(s, s', d) {
      ObjectSame(s, s', w, c, k, o, d);
    }
    ObjectTables(s, s', w, c, k, o);
  }

  /** What was delivered so far, with the carried bytes, is a prefix of the stream. */
  lemma CarryPrefix(s: State, c: CtxId, k: ConnId, data: Bytes)
    requires Tables(s) && c in s.ctxs && Mapped(Look(s, c), c, 0) && k < |s.objs|
    requires Look(s, c).sock.value.entry == Some(Some(k))
    requires s.objs[k].delivered + data == Look(s, c).sock.value.got
    ensures s.objs[k].peer < |s.peers| && s.objs[k].delivered + data <= s.peers[s.objs[k].peer].stream
  {
  }

  lemma RcvDeliverHands(s: State, s': State, w: nat, a: CtxId, n: nat, k: ConnId, o: Conn)
    requires w < |s.workers| && WorkerOk(s, RcvDeliver(a, a, n, k)) && ObjectStep(s, s', w, a, k, o)
    requires s'.workers[w] == RcvPost(a, a)
    requires o == s.objs[k].(delivered := s.objs[k].delivered + s.ctxs[a].buffer[..n])
    ensures WorkerOk(s', s'.workers[w])
  {
    ObjectLook(s, s', w, a, k, o);
    assert s'.ctxs[a].buffer[..0] == [];
  }

  lemma RcvDeliverMoves(s: State, s': State, w: nat, a: CtxId, ov: CtxId, n: nat, k: ConnId)
    requires w < |s.workers| && s.workers[w] == RcvDeliver(a, ov, n, k) && WorkerOk(s, s.workers[w]) && Tables(s)
    requires StepRcvDeliver(s, w, a, ov, n, k) == Some(s')
    ensures LoudMove(s, s', w, [], [])
    ensures |s'.workers| == |s.workers| && s'.workers[w] == RcvPost(a, ov)
  {
    var o := s.objs[k].(delivered := s.objs[k].delivered + s.ctxs[a].buffer[..n]);
    CarryPrefix(s, a, k, s.ctxs[a].buffer[..n]);
    RcvDeliverHands(s, s', w, a, n, k, o);
    ObjectMoves(s, s', w, a, k, o);
  }

  lemma AccDeliverHands(s: State, s': State, w: nat, a: CtxId, n: nat, c: CtxId, k: ConnId, o: Conn)
    requires w < |s.workers| && WorkerOk(s, AccDeliver(a, n, c, k)) && ObjectStep(s, s', w, c, k, o)
    requires s'.workers[w] == AccRecv(a, c)
    requires o == s.objs[k].(delivered := s.objs[k].delivered + s.ctxs[a].buffer[..n])
    ensures WorkerOk(s', s'.workers[w])
  {
    ObjectLook(s, s', w, c, k, o);
    assert s'.ctxs[c].buffer[..0] == [];
    assert o.delivered == s.ctxs[a].buffer[..n];
  }

  lemma AccDeliverShape(s: State, s': State, w: nat, a: CtxId, n: nat, c: CtxId, k: ConnId) returns (o: Conn)
    requires w < |s.workers| && WorkerOk(s, AccDeliver(a, n, c, k)) && StepAccDeliver(s, w, a, n, c, k) == Some(s')
    ensures ObjectStep(s, s', w, c, k, o) && s'.workers[w] == AccRecv(a, c)
    ensures a in s.ctxs && n <= |s.ctxs[a].buffer|
    ensures o == s.objs[k].(delivered := s.objs[k].delivered + s.ctxs[a].buffer[..n])
  {
    o := s.objs[k].(delivered := s.objs[k].delivered + s.ctxs[a].buffer[..n]);
  }

  lemma AccDeliverFits(s: State, a: CtxId, n: nat, c: CtxId, k: ConnId, o: Conn)
    requires WorkerOk(s, AccDeliver(a, n, c, k)) && Tables(s) && k < |s.objs| && a in s.ctxs && n <= |s.ctxs[a].buffer|
    requires o == s.objs[k].(delivered := s.objs[k].delivered + s.ctxs[a].buffer[..n])
    ensures ObjectFits(s, o)
  {
    assert s.objs[k].delivered + s.ctxs[a].buffer[..n] == s.ctxs[a].buffer[..n];
    CarryPrefix(s, c, k, s.ctxs[a].buffer[..n]);
  }

  lemma SameHands(a: CtxId, n: nat, c: CtxId, k: ConnId)
    ensures forall d: CtxId :: HeldCount(AccRecv(a, c), d) == HeldCount(AccDeliver(a, n, c, k), d)
    ensures HeldCount(AccDeliver(a, n, c, k), c) > 0
  {
  }

  lemma AccDeliverMoves(s: State, s': State, w: nat, a: CtxId, n: nat, c: CtxId, k: ConnId)
    requires w < |s.workers| && s.workers[w] == AccDeliver(a, n, c, k) && WorkerOk(s, s.workers[w]) && Tables(s)
    requires StepAccDeliver(s, w, a, n, c, k) == Some(s')
    ensures LoudMove(s, s', w, [], [])
  {
    var o := AccDeliverShape(s, s', w, a, n, c, k);
    AccDeliverFits(s, a, n, c, k, o);
    hide Tables, WorkerOk, ObjectFits, ObjectStep, LoudMove, HeldCount, StepAccDeliver;
    AccDeliverHands(s, s', w, a, n, c, k, o);
    SameHands(a, n, c, k);
    ObjectMoves(s, s', w, c, k, o);
  }

  lemma NotifyHands(s: State, s': State, w: nat, c: CtxId, back: Option<CtxId>, k: ConnId, o: Conn)
    requires w < |s.workers| && WorkerOk(s, Disc(Notify, c, back)) && ObjectStep(s, s', w, c, k, o)
    requires s'.workers[w] == Disc(Erase, c, back)
    requires o == s.objs[k].(closed := s.objs[k].closed + 1)
    ensures WorkerOk(s', s'.workers[w])
  {
    ObjectLook(s, s', w, c, k, o);
  }

  /** The connection that is about to be told of the end has been given all that was copied. */
  lemma NotifyFits(s: State, c: CtxId, k: ConnId)
    requires Carrying(Look(s, c), c, 0) && ObjsOk(s) && k < |s.objs| && Look(s, c).sock.value.entry == Some(Some(k))
    ensures ObjectFits(s, s.objs[k].(closed := 1)) && s.objs[k].closed == 0
  {
    assert ObjOk(s, k);
    var v := Look(s, c);
    assert v.ctx.buffer[..0] == [];
    assert v.sock.value.obj.value.delivered + [] == v.sock.value.obj.value.delivered;
  }

  lemma NotifyEntry(s: State, c: CtxId) returns (k: ConnId)
    requires Carrying(Look(s, c), c, 0)
    ensures c in s.ctxs && s.ctxs[c].socket.Some?
    ensures k < |s.objs| && Look(s, c).sock.value.entry == Some(Some(k)) == EntryAt(s, s.ctxs[c].socket.value)
  {
    k := s.conns[s.ctxs[c].socket.value].value;
  }

  lemma NotifyShape(s: State, s': State, w: nat, c: CtxId, back: Option<CtxId>) returns (k: ConnId, o: Conn)
    requires w < |s.workers| && WorkerOk(s, Disc(Notify, c, back)) && Tables(s)
    requires StepDiscNotify(s, w, c, back) == Some(s')
    ensures ObjectStep(s, s', w, c, k, o) && o == s.objs[k].(closed := 1) && s.objs[k].closed == 0
    ensures s'.workers[w] == Disc(Erase, c, back)
    ensures ObjectFits(s, o)
  {
    hide ListenerOk, KeysOk, PeersOk, ConnsOk, ObjsOk, ListOk, LockerOk, MainPhaseOk, ObjectFits, Carrying;
    k := NotifyEntry(s, c);
    NotifyFits(s, c, k);
    o := s.objs[k].(closed := s.objs[k].closed + 1);
  }

  lemma NotifyMoves(s: State, s': State, w: nat, c: CtxId, back: Option<CtxId>)
    requires w < |s.workers| && s.workers[w] == Disc(Notify, c, back) && WorkerOk(s, s.workers[w]) && Tables(s)
    requires StepDiscNotify(s, w, c, back) == Some(s')
    ensures LoudMove(s, s', w, [], [])
  {
    hide StepDiscNotify, WorkerOk, Tables, LoudMove, ObjectStep;
    var k, o := NotifyShape(s, s', w, c, back);
    NotifyHands(s, s', w, c, back, k, o);
    ObjectMoves(s, s', w, c, k, o);
  }

  // ---- WSARecv: the tag of one context changes, and maybe an operation is posted

  ghost predicate TagStep(s: State, s': State, w: nat, c: CtxId, posted: seq<Pending>) {
    && w < |s.workers| && |s'.workers| == |s.workers|
    && c in s.ctxs
    && s' == To(s, w, s'.workers[w])
             .(ctxs := s.ctxs[c := s.ctxs[c].(tag := IOReceive)], kernel := s.kernel + posted)
  }

  lemma TagSame(s: State, s': State, w: nat, c: CtxId, posted: seq<Pending>, d: CtxId)
    requires TagStep(s, s', w, c, posted) && d in s.ctxs && d != c
    ensures Same(s, s', d)
  {
    if s.ctxs[d].socket.Some? {
      assert LookAt(s', s.ctxs[d].socket.value) == LookAt(s, s.ctxs[d].socket.value);
    }
    if s.ctxs[d].accepted.Some? {
      assert LookAt(s', s.ctxs[d].accepted.value) == LookAt(s, s.ctxs[d].accepted.value);
    }
  }

  lemma TagLook(s: State, s': State, w: nat, c: CtxId, posted: seq<Pending>)
    requires TagStep(s, s', w, c, posted)
    ensures Look(s, c).View? && Look(s', c) == Look(s, c).(ctx := s.ctxs[c].(tag := IOReceive))
  {
    if s.ctxs[c].socket.Some? {
      assert LookAt(s', s.ctxs[c].socket.value) == LookAt(s, s.ctxs[c].socket.value);
    }
  }

  lemma TagTables(s: State, s': State, w: nat, c: CtxId, posted: seq<Pending>)
    requires TagStep(s, s', w, c, posted) && Tables(s) && s.listener != Some(c)
    ensures ListenerOk(s') && KeysOk(s') && PeersOk(s') && ConnsOk(s') && ObjsOk(s') && ListOk(s')
  {
    ObjsKept(s, s');
  }

  lemma TagMoves(s: State, s': State, w: nat, c: CtxId, posted: seq<Pending>)
    requires TagStep(s, s', w, c, posted) && Tables(s) && HeldCount(s.workers[w], c) > 0 && s.listener != Some(c)
    requires Inside(s'.workers[w]) == Inside(s.workers[w])
    requires Balanced(s, s', w, posted, []) && Handed(s', w, posted, [])
    ensures LoudMove(s, s', w, posted, [])
  {
    hide KeysOk, ListenerOk, PeersOk, ConnsOk, ObjsOk, ListOk, LockerOk, HeldCount, WorkerOk, Same;
    assert s'.dropped == s.dropped + [];
    forall d | d in s.ctxs && HeldCount(s.workers[w], d) == 0 ensures Same(s, s', d) {
      TagSame(s, s', w, c, posted, d);
    }
    TagTables(s, s', w, c, posted);
    LockerAfterWorker(s, s', w, posted, []);
  }

  lemma FirstRecvHands(s: State, s': State, w: nat, a: CtxId, c: CtxId, posted: seq<Pending>)
    requires TagStep(s, s', w, c, posted) && WorkerOk(s, AccRecv(a, c))
    requires (s'.workers[w] == AccSocket(a) && posted == [Pending(c, c, RecvOp(s.ctxs[c].socket.value, MAX_BUFF))])
             || (s'.workers[w] == Disc(Lock, c, Some(a)) && posted == [])
    ensures Handed(s', w, posted, [])
  {
    TagLook(s, s', w, c, posted);
  }

  lemma FirstRecvShape(s: State, s': State, w: nat, a: CtxId, c: CtxId, ch: Choice) returns (posted: seq<Pending>)
    requires w < |s.workers| && WorkerOk(s, AccRecv(a, c)) && StepAccRecv(s, w, a, c, ch) == Some(s')
    ensures TagStep(s, s', w, c, posted) && s.ctxs[c].socket.Some?
    ensures (s'.workers[w] == AccSocket(a) && posted == [Pending(c, c, RecvOp(s.ctxs[c].socket.value, MAX_BUFF))])
            || (s'.workers[w] == Disc(Lock, c, Some(a)) && posted == [])
  {
    posted := if ch.ok then [Pending(c, c, RecvOp(s.ctxs[c].socket.value, MAX_BUFF))] else [];
    assert s'.kernel == s.kernel + posted;
  }

  lemma FirstRecvBalanced(s: State, s': State, w: nat, a: CtxId, c: CtxId, posted: seq<Pending>)
    requires TagStep(s, s', w, c, posted) && s.workers[w] == AccRecv(a, c) && s.ctxs[c].socket.Some?
    requires (s'.workers[w] == AccSocket(a) && posted == [Pending(c, c, RecvOp(s.ctxs[c].socket.value, MAX_BUFF))])
             || (s'.workers[w] == Disc(Lock, c, Some(a)) && posted == [])
    ensures Balanced(s, s', w, posted, [])
    ensures HeldCount(s.workers[w], c) > 0 && Inside(s'.workers[w]) == Inside(s.workers[w])
  {
  }

  lemma FirstRecvMoves(s: State, s': State, w: nat, a: CtxId, c: CtxId, ch: Choice) returns (posted: seq<Pending>)
    requires w < |s.workers| && s.workers[w] == AccRecv(a, c) && WorkerOk(s, s.workers[w]) && Tables(s)
    requires StepAccRecv(s, w, a, c, ch) == Some(s')
    ensures LoudMove(s, s', w, posted, [])
  {
    hide StepAccRecv, Handed, Tables, TagStep, LoudMove, Inside, Balanced, HeldCount;
    posted := FirstRecvShape(s, s', w, a, c, ch);
    FirstRecvHands(s, s', w, a, c, posted);
    FirstRecvBalanced(s, s', w, a, c, posted);
    TagMoves(s, s', w, c, posted);
  }

  lemma NextRecvHands(s: State, s': State, w: nat, c: CtxId, posted: seq<Pending>)
    requires TagStep(s, s', w, c, posted) && WorkerOk(s, RcvPost(c, c))
    requires (s'.workers[w] == Idle && posted == [Pending(c, c, RecvOp(s.ctxs[c].socket.value, MAX_BUFF))])
             || (s'.workers[w] == Disc(Lock, c, None) && posted == [])
    ensures Handed(s', w, posted, [])
  {
    TagLook(s, s', w, c, posted);
  }

  lemma NextRecvShape(s: State, s': State, w: nat, c: CtxId, ch: Choice) returns (posted: seq<Pending>)
    requires w < |s.workers| && WorkerOk(s, RcvPost(c, c)) && StepRcvPost(s, w, c, c, ch) == Some(s')
    ensures TagStep(s, s', w, c, posted) && s.ctxs[c].socket.Some?
    ensures |posted| == if ch.ok then 1 else 0
    ensures (s'.workers[w] == Idle && posted == [Pending(c, c, RecvOp(s.ctxs[c].socket.value, MAX_BUFF))])
            || (s'.workers[w] == Disc(Lock, c, None) && posted == [])
  {
    posted := if ch.ok then [Pending(c, c, RecvOp(s.ctxs[c].socket.value, MAX_BUFF))] else [];
    assert s'.kernel == s.kernel + posted;
  }

  lemma NextRecvFacts(s: State, w: nat, a: CtxId, ov: CtxId)
    requires w < |s.workers| && WorkerOk(s, RcvPost(a, ov))
    ensures a == ov && s.listener != Some(ov)
  {
  }

  lemma NextRecvBalanced(s: State, s': State, w: nat, c: CtxId, posted: seq<Pending>)
    requires TagStep(s, s', w, c, posted) && s.workers[w] == RcvPost(c, c) && s.ctxs[c].socket.Some?
    requires (s'.workers[w] == Idle && posted == [Pending(c, c, RecvOp(s.ctxs[c].socket.value, MAX_BUFF))])
             || (s'.workers[w] == Disc(Lock, c, None) && posted == [])
    ensures Balanced(s, s', w, posted, [])
    ensures HeldCount(s.workers[w], c) > 0 && Inside(s'.workers[w]) == Inside(s.workers[w])
  {
  }

  lemma NextRecvMoves(s: State, s': State, w: nat, a: CtxId, ov: CtxId, ch: Choice) returns (posted: seq<Pending>)
    requires w < |s.workers| && s.workers[w] == RcvPost(a, ov) && WorkerOk(s, s.workers[w]) && Tables(s)
    requires StepRcvPost(s, w, a, ov, ch) == Some(s')
    ensures LoudMove(s, s', w, posted, [])
    ensures |posted| == if ch.ok then 1 else 0
  {
    hide StepRcvPost, Handed, Tables, LoudMove, Inside, Balanced, HeldCount;
    NextRecvFacts(s, w, a, ov);
    posted := NextRecvShape(s, s', w, ov, ch);
    NextRecvBalanced(s, s', w, ov, posted);
    NextRecvHands(s, s', w, ov, posted);
    TagMoves(s, s', w, ov, posted);
  }

  // ---- start_accept: a new accept socket in the listening context

  /** The accept socket of the listening context is replaced by a new handle, or by none. */
  ghost predicate AcceptStep(s: State, s': State, l: CtxId, h: Option<Socket>) {
    && s.listener == Some(l) && l in s.ctxs
    && (h.Some? ==> h.value !in s.open)
    && s'.listener == s.listener && s'.ctxs == s.ctxs[l := s.ctxs[l].(accepted := h)]
    && s'.open == s.open + (if h.Some? then {h.value} else {})
    && s'.list == s.list && s'.conns == s.conns && s'.objs == s.objs
    && s'.keyOf == s.keyOf && s'.peerOf == s.peerOf && s'.peers == s.peers
  }

  lemma AcceptSame(s: State, s': State, l: CtxId, h: Option<Socket>, d: CtxId)
    requires AcceptStep(s, s', l, h) && KeysOk(s) && d in s.ctxs && d != l
    ensures Same(s, s', d)
  {
    if s.ctxs[d].socket.Some? {
      assert LookAt(s', s.ctxs[d].socket.value) == LookAt(s, s.ctxs[d].socket.value);
    }
  }

  lemma AcceptTables(s: State, s': State, l: CtxId, h: Option<Socket>)
    requires AcceptStep(s, s', l, h) && Tables(s) && s'.main != Boot
    ensures ListenerOk(s') && KeysOk(s') && PeersOk(s') && ConnsOk(s') && ObjsOk(s') && ListOk(s')
  {
    ObjsKept(s, s');
  }

  lemma NewSocketArmed(s: State, s': State, l: CtxId, h: Socket)
    requires AcceptStep(s, s', l, Some(h)) && Tables(s)
    ensures AcceptArmed(s', l)
  {
    assert h !in s.keyOf && h !in s.conns && h !in s.peerOf;
    assert LookAt(s', h).got == [] && LookAt(s', h).conn == None;
    assert s'.ctxs[l].buffer[..0] == [];
  }

  lemma AccSocketMoves(s: State, s': State, w: nat, a: CtxId, h: Option<Socket>, dropped: seq<CtxId>)
    requires w < |s.workers| && |s'.workers| == |s.workers|
    requires s.workers[w] == AccSocket(a) && WorkerOk(s, s.workers[w]) && Tables(s)
    requires AcceptStep(s, s', a, h) && WorkerMoves(s, s', w, [], dropped) && s'.port == s.port && s'.locker == s.locker
    requires (h.Some? && dropped == [] && s'.workers[w] == AccPost(a))
             || (h.None? && dropped == [a] && s'.workers[w] == Returned)
    ensures LoudMove(s, s', w, [], dropped)
  {
    hide PeersOk, ConnsOk, ObjsOk, ListOk, LockerOk, KeysOk, Same;
    forall d | d in s.ctxs && HeldCount(s.workers[w], d) == 0 ensures Same(s, s', d) {
      AcceptSame(s, s', a, h, d);
    }
    AcceptTables(s, s', a, h);
    LockerAfterWorker(s, s', w, [], dropped);
    if h.Some? {
      NewSocketArmed(s, s', a, h.value);
    } else {
      ListenerDropped(s', a);
    }
  }

  lemma AccSocketShape(s: State, s': State, w: nat, a: CtxId, ch: Choice)
    returns (h: Option<Socket>, dropped: seq<CtxId>)
    requires w < |s.workers| && IsListener(s, a) && StepAccSocket(s, w, a, ch) == Some(s')
    ensures AcceptStep(s, s', a, h) && WorkerMoves(s, s', w, [], dropped) && s'.port == s.port && s'.locker == s.locker
    ensures (h.Some? && dropped == [] && s'.workers[w] == AccPost(a))
            || (h.None? && dropped == [a] && s'.workers[w] == Returned)
  {
    h := if ch.ok then Some(ch.sock) else None;
    dropped := if ch.ok then [] else [a];
    assert s'.kernel == s.kernel + [];
    assert s'.dropped == s.dropped + dropped;
  }

  // ---- updateCompletionPort: a new context for the accepted socket

  ghost predicate CreateStep(s: State, s': State, w: nat, a: CtxId, n: nat, c: CtxId, sk: Socket) {
    && w < |s.workers| && IsListener(s, a) && s.ctxs[a].accepted == Some(sk) && c !in s.ctxs
    && s' == To(s, w, AccList(a, n, c)).(ctxs := s.ctxs[c := NewCtx(sk, IOConnect)], keyOf := s.keyOf[sk := c])
  }

  lemma CreateSame(s: State, s': State, w: nat, a: CtxId, n: nat, c: CtxId, sk: Socket, d: CtxId)
    requires CreateStep(s, s', w, a, n, c, sk) && KeysOk(s) && sk !in s.keyOf && d in s.ctxs && d != a
    ensures Same(s, s', d)
  {
    if s.ctxs[d].socket.Some? {
      assert LookAt(s', s.ctxs[d].socket.value) == LookAt(s, s.ctxs[d].socket.value);
    }
  }

  lemma CreateHands(s: State, s': State, w: nat, a: CtxId, n: nat, c: CtxId, sk: Socket)
    requires CreateStep(s, s', w, a, n, c, sk) && WorkerOk(s, AccCreate(a, n)) && ListOk(s)
    ensures WorkerOk(s', AccList(a, n, c))
  {
    assert LookAt(s', sk) == LookAt(s, sk).(key := Some(c));
  }

  lemma CreateTables(s: State, s': State, w: nat, a: CtxId, n: nat, c: CtxId, sk: Socket)
    requires CreateStep(s, s', w, a, n, c, sk) && WorkerOk(s, AccCreate(a, n)) && Tables(s)
    ensures ListenerOk(s') && KeysOk(s') && PeersOk(s') && ConnsOk(s') && ObjsOk(s') && ListOk(s')
  {
    hide KeysOk, ObjsOk, LockerOk, MainPhaseOk;
    ObjsKept(s, s');
    CreateKeys(s, s', w, a, n, c, sk);
  }

  lemma CreateKeys(s: State, s': State, w: nat, a: CtxId, n: nat, c: CtxId, sk: Socket)
    requires CreateStep(s, s', w, a, n, c, sk) && WorkerOk(s, AccCreate(a, n)) && KeysOk(s)
    ensures KeysOk(s')
  {
  }

  lemma CreateDisturbs(s: State, s': State, w: nat, a: CtxId, n: nat, c: CtxId, sk: Socket)
    requires CreateStep(s, s', w, a, n, c, sk) && s.workers[w] == AccCreate(a, n) && WorkerOk(s, s.workers[w])
    requires KeysOk(s)
    ensures DisturbsOnly(s, s', w)
  {
    forall d | d in s.ctxs && HeldCount(s.workers[w], d) == 0 ensures Same(s, s', d) {
      CreateSame(s, s', w, a, n, c, sk, d);
    }
  }

  lemma CreateMoves(s: State, s': State, w: nat, a: CtxId, n: nat, c: CtxId, sk: Socket)
    requires CreateStep(s, s', w, a, n, c, sk) && s.workers[w] == AccCreate(a, n) && WorkerOk(s, s.workers[w])
    requires Tables(s)
    ensures LoudMove(s, s', w, [], [])
  {
    hide WorkerOk, ListenerOk, KeysOk, PeersOk, ConnsOk, ObjsOk, ListOk, LockerOk, DisturbsOnly;
    CreateDisturbs(s, s', w, a, n, c, sk);
    assert s'.dropped == s.dropped + [];
    assert s'.kernel == s.kernel + [];
    CreateHands(s, s', w, a, n, c, sk);
    CreateTables(s, s', w, a, n, c, sk);
    LockerAfterWorker(s, s', w, [], []);
  }

  lemma CreateShape(s: State, s': State, w: nat, a: CtxId, n: nat, ch: Choice) returns (sk: Socket)
    requires w < |s.workers| && WorkerOk(s, AccCreate(a, n)) && StepAccCreate(s, w, a, n, ch) == Some(s') && ch.ok
    ensures CreateStep(s, s', w, a, n, ch.addr, sk)
  {
    sk := s.ctxs[a].accepted.value;
  }

  // ---- connections_[socket] = a_conn

  ghost predicate MapStep(s: State, s': State, w: nat, c: CtxId, sk: Socket, p: PeerId) {
    && w < |s.workers| && |s'.workers| == |s.workers|
    && c in s.ctxs && s.ctxs[c].socket == Some(sk) && sk in s.peerOf && s.peerOf[sk] == p && p < |s.peers|
    && s' == To(s, w, s'.workers[w])
             .(objs := s.objs + [Conn(sk, p, [], 0)],
               peers := s.peers[p := s.peers[p].(conn := Some(|s.objs|))],
               conns := s.conns[sk := Some(|s.objs|)])
  }

  lemma MapLookElsewhere(s: State, s': State, w: nat, c: CtxId, sk: Socket, p: PeerId, sk': Socket)
    requires MapStep(s, s', w, c, sk, p) && PeersOk(s) && ConnsOk(s) && sk' != sk
    ensures LookAt(s', sk') == LookAt(s, sk')
  {
  }

  lemma MapSame(s: State, s': State, w: nat, c: CtxId, sk: Socket, p: PeerId, d: CtxId)
    requires MapStep(s, s', w, c, sk, p) && KeysOk(s) && PeersOk(s) && ConnsOk(s) && d in s.ctxs && d != c
    ensures Same(s, s', d)
  {
    if s.ctxs[d].socket.Some? {
      SocketsDiffer(s, c, d);
      MapLookElsewhere(s, s', w, c, sk, p, s.ctxs[d].socket.value);
    }
    if s.ctxs[d].accepted.Some? && s.ctxs[d].accepted.value !in s.keyOf {
      MapLookElsewhere(s, s', w, c, sk, p, s.ctxs[d].accepted.value);
    }
  }

  lemma MapHands(s: State, s': State, w: nat, a: CtxId, n: nat, c: CtxId, sk: Socket, p: PeerId)
    requires MapStep(s, s', w, c, sk, p) && WorkerOk(s, AccMap(a, n, c))
    requires s'.workers[w] == if n > 0 then AccDeliver(a, n, c, |s.objs|) else AccRecv(a, c)
    ensures WorkerOk(s', s'.workers[w])
  {
    assert LookAt(s', sk) == LookAt(s, sk).(entry := Some(Some(|s.objs|)), obj := Some(Conn(sk, p, [], 0)),
                                            conn := Some(|s.objs|));
    assert s'.ctxs[c].buffer[..0] == [];
    if n == 0 {
      assert LookAt(s, sk).got == [];
    }
  }

  lemma MapObjs(s: State, s': State, w: nat, c: CtxId, sk: Socket, p: PeerId)
    requires MapStep(s, s', w, c, sk, p) && ObjsOk(s) && s.peers[p].conn == None
    ensures ObjsOk(s')
  {
    forall k | 0 <= k < |s'.objs| ensures ObjOk(s', k) {
      if k < |s.objs| {
        assert ObjOk(s, k);
        assert s.objs[k].peer != p;
      }
    }
  }

  lemma MapConns(s: State, s': State, w: nat, c: CtxId, sk: Socket, p: PeerId)
    requires MapStep(s, s', w, c, sk, p) && KeysOk(s) && PeersOk(s) && ConnsOk(s)
    ensures KeysOk(s') && PeersOk(s') && ConnsOk(s')
  {
  }

  lemma MapListener(s: State, s': State, w: nat, c: CtxId, sk: Socket, p: PeerId)
    requires MapStep(s, s', w, c, sk, p) && ListenerOk(s) && ListOk(s)
    ensures ListenerOk(s') && ListOk(s')
  {
  }

  lemma MapTables(s: State, s': State, w: nat, a: CtxId, n: nat, c: CtxId, sk: Socket, p: PeerId)
    requires MapStep(s, s', w, c, sk, p) && WorkerOk(s, AccMap(a, n, c)) && Tables(s)
    ensures ListenerOk(s') && KeysOk(s') && PeersOk(s') && ConnsOk(s') && ObjsOk(s') && ListOk(s')
  {
    MapObjs(s, s', w, c, sk, p);
    hide ListenerOk, KeysOk, PeersOk, ConnsOk, ObjsOk, ListOk;
    MapConns(s, s', w, c, sk, p);
    MapListener(s, s', w, c, sk, p);
  }

  lemma MapDisturbs(s: State, s': State, w: nat, c: CtxId, sk: Socket, p: PeerId)
    requires MapStep(s, s', w, c, sk, p) && Tables(s) && HeldCount(s.workers[w], c) > 0
    ensures DisturbsOnly(s, s', w)
  {
    hide Same, HeldCount;
    forall d | d in s.ctxs && HeldCount(s.workers[w], d) == 0 ensures Same(s, s', d) {
      MapSame(s, s', w, c, sk, p, d);
    }
  }

  lemma MapMoves(s: State, s': State, w: nat, a: CtxId, n: nat, c: CtxId, sk: Socket, p: PeerId)
    requires MapStep(s, s', w, c, sk, p) && s.workers[w] == AccMap(a, n, c) && WorkerOk(s, s.workers[w]) && Tables(s)
    requires s'.workers[w] == if n > 0 then AccDeliver(a, n, c, |s.objs|) else AccRecv(a, c)
    ensures LoudMove(s, s', w, [], [])
  {
    hide WorkerOk, ListenerOk, KeysOk, PeersOk, ConnsOk, ObjsOk, ListOk, LockerOk, DisturbsOnly;
    assert s'.dropped == s.dropped + [];
    assert s'.kernel == s.kernel + [];
    MapDisturbs(s, s', w, c, sk, p);
    MapHands(s, s', w, a, n, c, sk, p);
    MapTables(s, s', w, a, n, c, sk, p);
    LockerAfterWorker(s, s', w, [], []);
  }

  lemma MapShape(s: State, s': State, w: nat, a: CtxId, n: nat, c: CtxId) returns (sk: Socket, p: PeerId)
    requires w < |s.workers| && WorkerOk(s, AccMap(a, n, c)) && StepAccMap(s, w, a, n, c) == Some(s')
    ensures MapStep(s, s', w, c, sk, p)
    ensures s'.workers[w] == if n > 0 then AccDeliver(a, n, c, |s.objs|) else AccRecv(a, c)
  {
    sk := s.ctxs[c].socket.value;
    p := s.peerOf[sk];
  }

  // ---- disconnect: connections_.erase, closesocket, socket_contexts_.remove, FREE

  lemma EraseTables(s: State, s': State, w: nat, c: CtxId, back: Option<CtxId>, sk: Socket)
    requires w < |s.workers| && Inside(s.workers[w]) && Tables(s)
    requires s' == To(s, w, Disc(Close, c, back)).(conns := s.conns - {sk})
    ensures ListenerOk(s') && KeysOk(s') && PeersOk(s') && ConnsOk(s') && ObjsOk(s') && ListOk(s') && LockerOk(s')
  {
    ObjsKept(s, s');
  }

  lemma EraseHands(s: State, s': State, w: nat, c: CtxId, back: Option<CtxId>, sk: Socket)
    requires w < |s.workers| && WorkerOk(s, Disc(Erase, c, back))
    requires c in s.ctxs && s.ctxs[c].socket == Some(sk)
    requires s' == To(s, w, Disc(Close, c, back)).(conns := s.conns - {sk})
    ensures WorkerOk(s', Disc(Close, c, back))
  {
    assert LookAt(s', sk) == LookAt(s, sk).(entry := None, obj := None);
  }

  lemma EraseDisturbs(s: State, s': State, w: nat, c: CtxId, sk: Socket)
    requires c in s.ctxs && s.ctxs[c].socket == Some(sk) && KeysOk(s)
    requires w < |s.workers| && |s'.workers| == |s.workers| && HeldCount(s.workers[w], c) > 0
    requires s' == To(s, w, s'.workers[w]).(conns := s.conns - {sk})
    ensures DisturbsOnly(s, s', w)
  {
    hide Same, HeldCount;
    forall d | d in s.ctxs && HeldCount(s.workers[w], d) == 0 ensures Same(s, s', d) {
      EraseSame(s, s', w, c, sk, d);
    }
  }

  lemma EraseMoves(s: State, s': State, w: nat, c: CtxId, back: Option<CtxId>, sk: Socket)
    requires w < |s.workers| && s.workers[w] == Disc(Erase, c, back) && WorkerOk(s, s.workers[w]) && Tables(s)
    requires c in s.ctxs && s.ctxs[c].socket == Some(sk)
    requires s' == To(s, w, Disc(Close, c, back)).(conns := s.conns - {sk})
    ensures LoudMove(s, s', w, [], [])
  {
    hide WorkerOk, ListenerOk, KeysOk, PeersOk, ConnsOk, ObjsOk, ListOk, LockerOk, DisturbsOnly;
    assert s'.dropped == s.dropped + [];
    assert s'.kernel == s.kernel + [];
    EraseDisturbs(s, s', w, c, sk);
    EraseHands(s, s', w, c, back, sk);
    EraseTables(s, s', w, c, back, sk);
  }

  lemma EraseSame(s: State, s': State, w: nat, c: CtxId, sk: Socket, d: CtxId)
    requires c in s.ctxs && s.ctxs[c].socket == Some(sk) && KeysOk(s) && d in s.ctxs && d != c
    requires w < |s.workers| && |s'.workers| == |s.workers|
    requires s' == To(s, w, s'.workers[w]).(conns := s.conns - {sk})
    ensures Same(s, s', d)
  {
    if s.ctxs[d].socket.Some? {
      SocketsDiffer(s, c, d);
      assert LookAt(s', s.ctxs[d].socket.value) == LookAt(s, s.ctxs[d].socket.value);
    }
    if s.ctxs[d].accepted.Some? && s.ctxs[d].accepted.value !in s.keyOf {
      assert LookAt(s', s.ctxs[d].accepted.value) == LookAt(s, s.ctxs[d].accepted.value);
    }
  }

  lemma EraseShape(s: State, s': State, w: nat, c: CtxId, back: Option<CtxId>) returns (sk: Socket)
    requires w < |s.workers| && WorkerOk(s, Disc(Erase, c, back)) && StepDiscErase(s, w, c, back) == Some(s')
    ensures c in s.ctxs && s.ctxs[c].socket == Some(sk)
    ensures s' == To(s, w, Disc(Close, c, back)).(conns := s.conns - {sk})
  {
    sk := s.ctxs[c].socket.value;
  }

  ghost predicate CloseStep(s: State, s': State, c: CtxId, sk: Socket) {
    && c in s.ctxs && s.ctxs[c].socket == Some(sk)
    && s'.listener == s.listener && s'.list == s.list && s'.conns == s.conns && s'.objs == s.objs && s'.peers == s.peers
    && s'.ctxs == s.ctxs[c := s.ctxs[c].(socket := None)]
    && s'.open == s.open - {sk} && s'.keyOf == s.keyOf - {sk} && s'.peerOf == s.peerOf - {sk}
  }

  /** The handle may be reused from now on, but no other live context or accept in progress refers to it. */
  lemma CloseSame(s: State, s': State, c: CtxId, sk: Socket, d: CtxId)
    requires CloseStep(s, s', c, sk) && KeysOk(s) && d in s.ctxs && d != c
    ensures Same(s, s', d)
  {
    if s.ctxs[d].socket.Some? {
      SocketsDiffer(s, c, d);
      assert LookAt(s', s.ctxs[d].socket.value) == LookAt(s, s.ctxs[d].socket.value);
    }
    if s.ctxs[d].accepted.Some? && s.ctxs[d].accepted.value !in s.keyOf {
      assert LookAt(s', s.ctxs[d].accepted.value) == LookAt(s, s.ctxs[d].accepted.value);
    }
  }

  lemma CloseTables(s: State, s': State, c: CtxId, sk: Socket)
    requires CloseStep(s, s', c, sk) && KeysOk(s) && PeersOk(s) && ConnsOk(s) && ObjsOk(s) && ListOk(s)
    requires sk !in s.conns
    ensures KeysOk(s') && PeersOk(s') && ConnsOk(s') && ObjsOk(s') && ListOk(s')
  {
    ObjsKept(s, s');
  }

  lemma CloseInside(s: State, s': State, w: nat, c: CtxId, back: Option<CtxId>, sk: Socket)
    requires w < |s.workers| && s.workers[w] == Disc(Close, c, back) && WorkerOk(s, s.workers[w]) && Tables(s)
    requires CloseStep(s, s', c, sk) && s'.main == s.main && s'.locker == s.locker
    requires s'.workers == s.workers[w := Disc(Remove, c, back)]
    ensures ListenerOk(s') && LockerOk(s') && WorkerOk(s', Disc(Remove, c, back)) && sk !in s.conns
  {
  }

  lemma CloseLive(s: State, s': State, c: CtxId, sk: Socket)
    requires CloseStep(s, s', c, sk)
    ensures c in s.ctxs && forall d :: d in s'.ctxs <==> d in s.ctxs
  {
  }

  lemma CloseMoves(s: State, s': State, w: nat, c: CtxId, back: Option<CtxId>, sk: Socket)
    requires w < |s.workers| && s.workers[w] == Disc(Close, c, back) && WorkerOk(s, s.workers[w]) && Tables(s)
    requires CloseStep(s, s', c, sk) && WorkerMoves(s, s', w, [], [])
    requires s'.workers[w] == Disc(Remove, c, back) && s'.locker == s.locker && s'.port == s.port
    ensures LoudMove(s, s', w, [], [])
  {
    hide WorkerOk, ListenerOk, PeersOk, ConnsOk, ObjsOk, ListOk, LockerOk, Same, CloseStep, KeysOk;
    CloseLive(s, s', c, sk);
    forall d | d in s.ctxs && HeldCount(s.workers[w], d) == 0 ensures Same(s, s', d) {
      CloseSame(s, s', c, sk, d);
    }
    CloseInside(s, s', w, c, back, sk);
    CloseTables(s, s', c, sk);
  }

  lemma CloseShape(s: State, s': State, w: nat, c: CtxId, back: Option<CtxId>)
    requires w < |s.workers| && WorkerOk(s, Disc(Close, c, back)) && StepDiscClose(s, w, c, back) == Some(s')
    ensures c in s.ctxs && s.ctxs[c].socket.Some? && CloseStep(s, s', c, s.ctxs[c].socket.value)
    ensures WorkerMoves(s, s', w, [], [])
    ensures s'.workers[w] == Disc(Remove, c, back) && s'.locker == s.locker && s'.port == s.port
  {
    assert s'.dropped == s.dropped + [];
    assert s'.kernel == s.kernel + [];
  }

  lemma {:induction false} WithoutMembers(list: seq<CtxId>, c: CtxId)
    ensures forall d: CtxId :: d in Without(list, c) <==> d in list && d != c
    ensures (forall i, j :: 0 <= i < j < |list| ==> list[i] != list[j]) ==>
      forall i, j :: 0 <= i < j < |Without(list, c)| ==> Without(list, c)[i] != Without(list, c)[j]
  {
    if list != [] {
      var rest := list[1..];
      WithoutMembers(rest, c);
      assert list == [list[0]] + rest;
      if forall i, j :: 0 <= i < j < |list| ==> list[i] != list[j] {
        forall i, j | 0 <= i < j < |rest| ensures rest[i] != rest[j] {
          assert rest[i] == list[i + 1] && rest[j] == list[j + 1];
        }
        assert list[0] !in rest;
      }
    }
  }

  lemma RemoveTables(s: State, s': State, w: nat, c: CtxId, back: Option<CtxId>)
    requires w < |s.workers| && Inside(s.workers[w]) && Tables(s)
    requires s' == To(s, w, Disc(Free, c, back)).(list := Without(s.list, c))
    ensures ListenerOk(s') && KeysOk(s') && PeersOk(s') && ConnsOk(s') && ObjsOk(s') && ListOk(s') && LockerOk(s')
  {
    WithoutMembers(s.list, c);
    ObjsKept(s, s');
    hide ObjsOk;
  }

  lemma RemoveHands(s: State, s': State, w: nat, c: CtxId, back: Option<CtxId>)
    requires w < |s.workers| && WorkerOk(s, Disc(Remove, c, back))
    requires s' == To(s, w, Disc(Free, c, back)).(list := Without(s.list, c))
    ensures WorkerOk(s', Disc(Free, c, back))
  {
    WithoutMembers(s.list, c);
  }

  lemma RemoveMoves(s: State, s': State, w: nat, c: CtxId, back: Option<CtxId>)
    requires w < |s.workers| && s.workers[w] == Disc(Remove, c, back) && WorkerOk(s, s.workers[w]) && Tables(s)
    requires s' == To(s, w, Disc(Free, c, back)).(list := Without(s.list, c))
    ensures LoudMove(s, s', w, [], [])
  {
    hide WorkerOk, ListenerOk, KeysOk, PeersOk, ConnsOk, ObjsOk, ListOk, LockerOk, Same;
    assert s'.dropped == s.dropped + [];
    assert s'.kernel == s.kernel + [];
    forall d | d in s.ctxs && HeldCount(s.workers[w], d) == 0 ensures Same(s, s', d) {
      RemoveSame(s, s', w, c, d);
    }
    RemoveTables(s, s', w, c, back);
    RemoveHands(s, s', w, c, back);
  }

  lemma RemoveSame(s: State, s': State, w: nat, c: CtxId, d: CtxId)
    requires w < |s.workers| && |s'.workers| == |s.workers|
    requires s' == To(s, w, s'.workers[w]).(list := Without(s.list, c)) && d in s.ctxs && d != c
    ensures Same(s, s', d)
  {
    WithoutMembers(s.list, c);
    if s.ctxs[d].socket.Some? {
      assert LookAt(s', s.ctxs[d].socket.value) == LookAt(s, s.ctxs[d].socket.value);
    }
  }

  lemma FreeSame(s: State, s': State, w: nat, c: CtxId, back: Option<CtxId>, d: CtxId)
    requires w < |s.workers| && d in s.ctxs && d != c
    requires s' == To(s, w, Disc(Unlock, c, back)).(ctxs := s.ctxs - {c})
    ensures Same(s, s', d)
  {
    if s.ctxs[d].socket.Some? {
      assert LookAt(s', s.ctxs[d].socket.value) == LookAt(s, s.ctxs[d].socket.value);
    }
    if s.ctxs[d].accepted.Some? {
      assert LookAt(s', s.ctxs[d].accepted.value) == LookAt(s, s.ctxs[d].accepted.value);
    }
  }

  lemma FreeTables(s: State, s': State, w: nat, c: CtxId, back: Option<CtxId>)
    requires w < |s.workers| && Inside(s.workers[w]) && Tables(s)
    requires c in s.ctxs && s.ctxs[c].socket == None && c !in s.list && s.listener.Some? && s.listener != Some(c)
    requires s' == To(s, w, Disc(Unlock, c, back)).(ctxs := s.ctxs - {c})
    ensures ListenerOk(s') && KeysOk(s') && PeersOk(s') && ConnsOk(s') && ObjsOk(s') && ListOk(s') && LockerOk(s')
  {
    ObjsKept(s, s');
    hide ObjsOk;
  }

  lemma FreeHands(s: State, s': State, w: nat, c: CtxId, back: Option<CtxId>)
    requires w < |s.workers| && WorkerOk(s, Disc(Free, c, back)) && (back.Some? ==> back.value != c)
    requires s' == To(s, w, Disc(Unlock, c, back)).(ctxs := s.ctxs - {c})
    ensures WorkerOk(s', Disc(Unlock, c, back))
    ensures c in s.ctxs && s.ctxs[c].socket == None && c !in s.list && s.listener.Some? && s.listener != Some(c)
  {
  }

  lemma FreeDisturbs(s: State, s': State, w: nat, c: CtxId, back: Option<CtxId>)
    requires w < |s.workers| && s.workers[w] == Disc(Free, c, back) && WorkerOk(s, s.workers[w]) && ListenerOk(s)
    requires StepDisc(s, w, Free, c, back) == Some(s')
    ensures DisturbsOnly(s, s', w)
  {
    hide ListenerOk, Same;
    forall d | d in s.ctxs && HeldCount(s.workers[w], d) == 0 ensures Same(s, s', d) {
      FreeSame(s, s', w, c, back, d);
    }
  }

  lemma FreeMoves(s: State, s': State, w: nat, c: CtxId, back: Option<CtxId>)
    requires w < |s.workers| && s.workers[w] == Disc(Free, c, back) && WorkerOk(s, s.workers[w]) && Tables(s)
    requires StepDisc(s, w, Free, c, back) == Some(s')
    ensures LoudMove(s, s', w, [], [])
  {
    hide ListenerOk, KeysOk, PeersOk, ConnsOk, ObjsOk, ListOk, LockerOk, DisturbsOnly;
    assert s'.dropped == s.dropped + [];
    assert s'.kernel == s.kernel + [];
    FreeDisturbs(s, s', w, c, back);
    FreeHands(s, s', w, c, back);
    FreeTables(s, s', w, c, back);
  }
}
