/** Dequeuing, the steps of the system and the steps of the main thread keep the invariant. */
module IocpSystemSteps {
  import opened Prelude
  import opened IocpModel
  import opened IocpInvariant
  import opened IocpOwnership
  import opened IocpWorkerSteps
  import opened IocpTableSteps

  // ---- GetQueuedCompletionStatus

  lemma DequeueOwned(s: State, s': State, w: nat)
    requires Owned(s) && w < |s.workers| && s.workers[w] == Idle && StepDequeue(s, w) == Some(s')
    ensures Owned(s')
  {
    var p := s.queue[0];
    forall c: CtxId ensures Places(s', c) == if c in s'.ctxs then 1 else 0 {
      SumUpdate(s.workers, w, Dequeued(p), WorkerHolds(c));
      assert s.queue == [p] + s.queue[1..];
      SumConcat([p], s.queue[1..], QueueHolds(c));
      assert Places(s, c) == if c in s.ctxs then 1 else 0;
    }
  }

  lemma DequeueHolders(s: State, s': State, w: nat)
    requires Holders(s) && w < |s.workers| && s.workers[w] == Idle && StepDequeue(s, w) == Some(s')
    ensures Holders(s')
  {
    forall i | 0 <= i < |s'.kernel| ensures PendingOk(s', s'.kernel[i]) {
      SameTablesSame(s, s', s.kernel[i].ov);
      PendingKept(s, s', s.kernel[i]);
    }
    forall i | 0 <= i < |s'.queue| ensures PacketOk(s', s'.queue[i]) {
      assert s'.queue[i] == s.queue[i + 1];
      QuietPacket(s, s', s.queue[i + 1]);
    }
    forall i | 0 <= i < |s'.dropped| ensures DroppedOk(s', s'.dropped[i]) {
      SameTablesSame(s, s', s.dropped[i]);
      DroppedKept(s, s', s.dropped[i]);
    }
    forall i | 0 <= i < |s'.workers| ensures WorkerOk(s', s'.workers[i]) {
      if i == w {
        QuietPacket(s, s', s.queue[0]);
      } else {
        SameTablesWorker(s, s', s.workers[i]);
      }
    }
    QuietMain(s, s');
  }

  lemma QuietMain(s: State, s': State)
    requires MainOk(s) && Quiet(s, s')
    ensures MainOk(s')
  {
    if s.main == ArmPost {
      SameTablesSame(s, s', s.listener.value);
    }
  }

  lemma DequeueKeeps(s: State, s': State, w: nat)
    requires Inv(s) && w < |s.workers| && s.workers[w] == Idle && StepDequeue(s, w) == Some(s')
    ensures Inv(s')
  {
    DequeueOwned(s, s', w);
    DequeueHolders(s, s', w);
    DequeuePhases(s, s', w);
    QuietTables(s, s');
  }

  lemma DequeuePhases(s: State, s': State, w: nat)
    requires LockerOk(s) && MainPhaseOk(s) && w < |s.workers| && s.workers[w] == Idle && StepDequeue(s, w) == Some(s')
    ensures LockerOk(s') && MainPhaseOk(s') && Quiet(s, s')
  {
  }

  // ---- Completions

  ghost predicate KernelMoves(s: State, s': State, i: nat, p: Packet) {
    && i < |s.kernel|
    && p.Completion? && p.ov == s.kernel[i].ov && p.key == s.kernel[i].key
    && s'.kernel == RemoveAt(s.kernel, i)
    && s'.queue == s.queue + [p]
    && s'.workers == s.workers && s'.dropped == s.dropped && s'.main == s.main && s'.listener == s.listener
    && s'.exiting == s.exiting && s'.running == s.running && s'.port == s.port && s'.locker == s.locker
    && s'.list == s.list && s'.conns == s.conns && s'.objs == s.objs && s'.open == s.open && s'.keyOf == s.keyOf
    && s'.ctxs.Keys == s.ctxs.Keys
    && (forall d :: d in s.ctxs && d != s.kernel[i].ov ==> Same(s, s', d))
  }

  lemma KernelOwned(s: State, s': State, i: nat, p: Packet)
    requires Owned(s) && KernelMoves(s, s', i, p)
    ensures Owned(s')
  {
    forall c: CtxId ensures Places(s', c) == if c in s'.ctxs then 1 else 0 {
      SumRemoveAt(s.kernel, i, KernelHolds(c));
      SumConcat(s.queue, [p], QueueHolds(c));
      assert Places(s, c) == if c in s.ctxs then 1 else 0;
      assert c in s'.ctxs <==> c in s'.ctxs.Keys;
    }
  }

  /** Everything but context `c` looks the same. */
  ghost predicate Elsewhere(s: State, s': State, c: CtxId) {
    && s'.listener == s.listener
    && (s.exiting ==> s'.exiting)
    && forall d :: d in s.ctxs && d != c ==> Same(s, s', d)
  }

  lemma PendingElsewhere(s: State, s': State, c: CtxId, p: Pending)
    requires PendingOk(s, p) && p.ov != c && Elsewhere(s, s', c)
    ensures PendingOk(s', p)
  {
    PendingKept(s, s', p);
  }

  lemma PacketElsewhere(s: State, s': State, c: CtxId, p: Packet)
    requires PacketOk(s, p) && (p.Completion? ==> p.ov != c) && Elsewhere(s, s', c)
    ensures PacketOk(s', p)
  {
    PacketKept(s, s', p);
  }

  lemma DroppedElsewhere(s: State, s': State, c: CtxId, d: CtxId)
    requires DroppedOk(s, d) && d != c && Elsewhere(s, s', c)
    ensures DroppedOk(s', d)
  {
    DroppedKept(s, s', d);
  }

  lemma WorkerElsewhere(s: State, s': State, c: CtxId, wk: Worker)
    requires WorkerOk(s, wk) && HeldCount(wk, c) == 0 && Elsewhere(s, s', c)
    ensures WorkerOk(s', wk)
  {
    forall d | HeldCount(wk, d) > 0 ensures Same(s, s', d) {
      HeldLive(s, wk, d);
    }
    WorkerKept(s, s', wk);
  }

  lemma MainElsewhere(s: State, s': State, c: CtxId)
    requires MainOk(s) && MainHolds(s, c) == 0 && s'.main == s.main && Elsewhere(s, s', c)
    ensures MainOk(s')
  {
    if s.main == ArmPost {
      assert Same(s, s', s.listener.value);
    }
  }

  /** Nobody but those in `s'.kernel` and `extra` is new, and nobody holds context `c`. */
  ghost predicate HoldersStay(s: State, s': State, c: CtxId, extra: seq<Packet>) {
    && (forall j :: 0 <= j < |s'.kernel| ==> s'.kernel[j] in s.kernel && s'.kernel[j].ov != c)
    && s'.queue == s.queue + extra
    && (forall j :: 0 <= j < |s.queue| && s.queue[j].Completion? ==> s.queue[j].ov != c)
    && s'.dropped == s.dropped && (forall j :: 0 <= j < |s.dropped| ==> s.dropped[j] != c)
    && s'.workers == s.workers && (forall j :: 0 <= j < |s.workers| ==> HeldCount(s.workers[j], c) == 0)
  }

  lemma HoldersElsewhere(s: State, s': State, c: CtxId, extra: seq<Packet>)
    requires Holders(s) && Elsewhere(s, s', c) && HoldersStay(s, s', c, extra) && MainOk(s')
    requires forall j :: 0 <= j < |extra| ==> PacketOk(s', extra[j])
    ensures Holders(s')
  {
    hide PendingOk, PacketOk, DroppedOk, WorkerOk, MainOk, HeldCount, Elsewhere;
    forall j | 0 <= j < |s'.kernel| ensures PendingOk(s', s'.kernel[j]) {
      PendingElsewhere(s, s', c, s'.kernel[j]);
    }
    forall j | 0 <= j < |s'.queue| ensures PacketOk(s', s'.queue[j]) {
      if j < |s.queue| {
        PacketElsewhere(s, s', c, s.queue[j]);
      }
    }
    forall j | 0 <= j < |s'.dropped| ensures DroppedOk(s', s'.dropped[j]) {
      DroppedElsewhere(s, s', c, s.dropped[j]);
    }
    forall j | 0 <= j < |s'.workers| ensures WorkerOk(s', s'.workers[j]) {
      WorkerElsewhere(s, s', c, s.workers[j]);
    }
  }

  lemma KernelElsewhere(s: State, s': State, i: nat, p: Packet)
    requires Owned(s) && KernelMoves(s, s', i, p)
    ensures Elsewhere(s, s', s.kernel[i].ov) && HoldersStay(s, s', s.kernel[i].ov, [p])
    ensures MainHolds(s, s.kernel[i].ov) == 0
  {
    hide Same, HeldCount;
    KernelExclusive(s, i);
    forall j | 0 <= j < |s'.kernel| ensures s'.kernel[j] in s.kernel && s'.kernel[j].ov != s.kernel[i].ov {
      var k := if j < i then j else j + 1;
      assert s'.kernel[j] == s.kernel[k];
    }
  }

  lemma KernelHolders(s: State, s': State, i: nat, p: Packet)
    requires Owned(s) && Holders(s) && KernelMoves(s, s', i, p) && PacketOk(s', p)
    ensures Holders(s')
  {
    hide Owned, PendingOk, PacketOk, DroppedOk, WorkerOk, Elsewhere, HoldersStay, MainHolds;
    KernelElsewhere(s, s', i, p);
    MainElsewhere(s, s', s.kernel[i].ov);
    HoldersElsewhere(s, s', s.kernel[i].ov, [p]);
  }

  lemma KernelTables(s: State, s': State, i: nat, p: Packet)
    requires Tables(s) && KernelMoves(s, s', i, p)
    ensures ConnsOk(s') && ListOk(s') && LockerOk(s') && MainPhaseOk(s')
  {
    hide ListenerOk, KeysOk, PeersOk, ObjsOk;
  }

  lemma KernelStep(s: State, s': State, i: nat, p: Packet)
    requires Inv(s) && KernelMoves(s, s', i, p) && PacketOk(s', p)
    requires ListenerOk(s') && KeysOk(s') && PeersOk(s') && ObjsOk(s')
    ensures Inv(s')
  {
    hide Owned, Holders, KernelMoves, ListenerOk, KeysOk, PeersOk, ConnsOk, ObjsOk, ListOk, LockerOk, MainPhaseOk;
    KernelOwned(s, s', i, p);
    KernelHolders(s, s', i, p);
    KernelTables(s, s', i, p);
  }

  /** A completion without bytes. */
  lemma EmptyKeeps(s: State, s': State, i: nat, ok: bool)
    requires Inv(s) && i < |s.kernel| && (s.kernel[i].op.AcceptOp? ==> !ok)
    requires s' == s.(kernel := RemoveAt(s.kernel, i),
                      queue := s.queue + [Completion(s.kernel[i].key, s.kernel[i].ov, ok, 0)])
    ensures Inv(s')
  {
    var p := Completion(s.kernel[i].key, s.kernel[i].ov, ok, 0);
    assert PendingOk(s, s.kernel[i]);
    FailMoves(s, s', i, p);
    QuietPacket(s, s', p);
    QuietTables(s, s');
    KernelStep(s, s', i, p);
  }

  lemma FailMoves(s: State, s': State, i: nat, p: Packet)
    requires i < |s.kernel| && PendingOk(s, s.kernel[i])
    requires p.Completion? && p.key == s.kernel[i].key && p.ov == s.kernel[i].ov && p.size == 0
    requires s.kernel[i].op.AcceptOp? ==> !p.ok
    requires s' == s.(kernel := RemoveAt(s.kernel, i), queue := s.queue + [p])
    ensures KernelMoves(s, s', i, p) && Quiet(s, s') && PacketOk(s, p)
  {
    forall d | d in s.ctxs ensures Same(s, s', d) {
      SameTablesSame(s, s', d);
    }
  }

  // ---- A receive completes with bytes

  ghost predicate FillStep(s: State, s': State, i: nat, c: CtxId, sk: Socket, q: PeerId, n: nat) {
    && i < |s.kernel| && s.kernel[i].ov == c && s.kernel[i].key == c && c in s.ctxs && s.ctxs[c].socket == Some(sk)
    && sk in s.peerOf && s.peerOf[sk] == q && q < |s.peers|
    && s.peers[q].taken + n <= |s.peers[q].stream| && n <= |s.ctxs[c].buffer|
    && s' == s.(ctxs := s.ctxs[c := s.ctxs[c].(buffer :=
                   Overwrite(s.ctxs[c].buffer, s.peers[q].stream[s.peers[q].taken..s.peers[q].taken + n]))],
                peers := s.peers[q := s.peers[q].(taken := s.peers[q].taken + n)],
                kernel := RemoveAt(s.kernel, i),
                queue := s.queue + [Completion(c, c, true, n)])
  }

  lemma FillElsewhere(s: State, s': State, i: nat, c: CtxId, sk: Socket, q: PeerId, n: nat, sk': Socket)
    requires FillStep(s, s', i, c, sk, q, n) && PeersOk(s) && sk' != sk
    ensures LookAt(s', sk') == LookAt(s, sk')
  {
  }

  lemma FillSame(s: State, s': State, i: nat, c: CtxId, sk: Socket, q: PeerId, n: nat, d: CtxId)
    requires FillStep(s, s', i, c, sk, q, n) && PeersOk(s) && KeysOk(s) && d in s.ctxs && d != c
    ensures Same(s, s', d)
  {
    if s.ctxs[d].socket.Some? {
      SocketsDiffer(s, c, d);
      FillElsewhere(s, s', i, c, sk, q, n, s.ctxs[d].socket.value);
    }
    if s.ctxs[d].accepted.Some? && s.ctxs[d].accepted.value !in s.keyOf {
      FillElsewhere(s, s', i, c, sk, q, n, s.ctxs[d].accepted.value);
    }
  }

  lemma FillCarries(s: State, s': State, i: nat, c: CtxId, sk: Socket, q: PeerId, n: nat)
    requires FillStep(s, s', i, c, sk, q, n) && PendingOk(s, s.kernel[i]) && s.kernel[i].op.RecvOp? && PeersOk(s)
    requires n <= MAX_BUFF
    ensures PacketOk(s', Completion(c, c, true, n))
  {
    var peer := s.peers[q];
    var data := peer.stream[peer.taken..peer.taken + n];
    assert s.ctxs[c].buffer[..0] == [];
    assert s'.ctxs[c].buffer[..n] == data;
    assert peer.stream[..peer.taken] + data == peer.stream[..peer.taken + n];
    assert LookAt(s', sk) == LookAt(s, sk).(got := peer.stream[..peer.taken + n]);
    var d := LookAt(s, sk).obj.value.delivered;
    assert d + [] == d;
    assert d == peer.stream[..peer.taken];
  }

  lemma FillTables(s: State, s': State, i: nat, c: CtxId, sk: Socket, q: PeerId, n: nat)
    requires FillStep(s, s', i, c, sk, q, n) && Tables(s) && PendingOk(s, s.kernel[i]) && s.kernel[i].op.RecvOp?
    ensures ListenerOk(s') && KeysOk(s') && PeersOk(s') && ObjsOk(s')
  {
    FillObjs(s, s', i, c, sk, q, n);
    hide ObjsOk, PendingOk;
  }

  /** The peer whose bytes are copied has a connection that is not closed. */
  lemma FillObjs(s: State, s': State, i: nat, c: CtxId, sk: Socket, q: PeerId, n: nat)
    requires FillStep(s, s', i, c, sk, q, n) && ObjsOk(s) && PendingOk(s, s.kernel[i]) && s.kernel[i].op.RecvOp?
    ensures ObjsOk(s')
  {
    var k := LookAt(s, sk).entry.value.value;
    assert s.objs[k].closed == 0 && s.peers[q].conn == Some(k);
    forall j | 0 <= j < |s'.objs| ensures ObjOk(s', j) {
      assert ObjOk(s, j);
    }
  }

  lemma RecvMoves(s: State, s': State, i: nat, c: CtxId, sk: Socket, q: PeerId, n: nat)
    requires FillStep(s, s', i, c, sk, q, n) && PeersOk(s) && KeysOk(s)
    ensures KernelMoves(s, s', i, Completion(c, c, true, n))
  {
    forall d | d in s.ctxs && d != c ensures Same(s, s', d) {
      FillSame(s, s', i, c, sk, q, n, d);
    }
  }

  lemma RecvShape(s: State, s': State, i: nat, n: nat) returns (c: CtxId, sk: Socket, q: PeerId)
    requires Holders(s) && StepKernelRecv(s, i, n) == Some(s')
    ensures FillStep(s, s', i, c, sk, q, n) && PendingOk(s, s.kernel[i]) && s.kernel[i].op.RecvOp? && n <= MAX_BUFF
  {
    assert PendingOk(s, s.kernel[i]);
    c, sk := s.kernel[i].ov, s.kernel[i].op.sock;
    q := s.peerOf[sk];
  }

  lemma RecvKeeps(s: State, s': State, i: nat, n: nat)
    requires Inv(s) && StepKernelRecv(s, i, n) == Some(s')
    ensures Inv(s')
  {
    var c, sk, q := RecvShape(s, s', i, n);
    hide StepKernelRecv, Owned, Holders, FillStep, PendingOk, PacketOk, KernelMoves,
         ListenerOk, KeysOk, PeersOk, ConnsOk, ObjsOk, ListOk, LockerOk, MainPhaseOk;
    RecvMoves(s, s', i, c, sk, q, n);
    FillCarries(s, s', i, c, sk, q, n);
    FillTables(s, s', i, c, sk, q, n);
    KernelStep(s, s', i, Completion(c, c, true, n));
  }

  // ---- AcceptEx completes

  ghost predicate ConnectStep(s: State, s': State, i: nat, l: CtxId, h: Socket, stream: Bytes, n: nat) {
    && i < |s.kernel| && s.kernel[i] == Pending(l, l, AcceptOp(h)) && l in s.ctxs
    && h in s.open && h !in s.peerOf && n <= |stream| && n <= |s.ctxs[l].buffer|
    && s' == s.(ctxs := s.ctxs[l := s.ctxs[l].(buffer := Overwrite(s.ctxs[l].buffer, stream[..n]))],
                peers := s.peers + [Peer(stream, n, None)],
                peerOf := s.peerOf[h := |s.peers|],
                kernel := RemoveAt(s.kernel, i),
                queue := s.queue + [Completion(l, l, true, n)])
  }

  lemma ConnectElsewhere(s: State, s': State, i: nat, l: CtxId, h: Socket, stream: Bytes, n: nat, sk: Socket)
    requires ConnectStep(s, s', i, l, h, stream, n) && PeersOk(s) && sk != h
    ensures LookAt(s', sk) == LookAt(s, sk)
  {
  }

  lemma ConnectMoves(s: State, s': State, i: nat, l: CtxId, h: Socket, stream: Bytes, n: nat)
    requires ConnectStep(s, s', i, l, h, stream, n) && PeersOk(s) && KeysOk(s) && PendingOk(s, s.kernel[i])
    ensures KernelMoves(s, s', i, Completion(l, l, true, n))
  {
    forall d | d in s.ctxs && d != l ensures Same(s, s', d) {
      if s.ctxs[d].socket.Some? {
        ConnectElsewhere(s, s', i, l, h, stream, n, s.ctxs[d].socket.value);
      }
    }
  }

  lemma ConnectCarries(s: State, s': State, i: nat, l: CtxId, h: Socket, stream: Bytes, n: nat)
    requires ConnectStep(s, s', i, l, h, stream, n) && PendingOk(s, s.kernel[i])
    ensures PacketOk(s', Completion(l, l, true, n))
  {
    assert s'.ctxs[l].buffer[..n] == stream[..n];
  }

  lemma ConnectTables(s: State, s': State, i: nat, l: CtxId, h: Socket, stream: Bytes, n: nat)
    requires ConnectStep(s, s', i, l, h, stream, n) && Tables(s) && PendingOk(s, s.kernel[i])
    ensures ListenerOk(s') && KeysOk(s') && PeersOk(s') && ObjsOk(s')
  {
    hide ObjsOk, ConnsOk, ListOk, LockerOk, MainPhaseOk;
    ConnectObjs(s, s', i, l, h, stream, n);
  }

  lemma ConnectObjs(s: State, s': State, i: nat, l: CtxId, h: Socket, stream: Bytes, n: nat)
    requires ConnectStep(s, s', i, l, h, stream, n) && ObjsOk(s)
    ensures ObjsOk(s')
  {
    forall k | 0 <= k < |s'.objs| ensures ObjOk(s', k) {
      assert ObjOk(s, k);
    }
  }

  lemma AcceptKeeps(s: State, s': State, i: nat, stream: Bytes, n: nat)
    requires Inv(s) && StepKernelAccept(s, i, stream, n) == Some(s')
    ensures Inv(s')
  {
    assert PendingOk(s, s.kernel[i]);
    var l, h := s.kernel[i].ov, s.kernel[i].op.sock;
    ConnectMoves(s, s', i, l, h, stream, n);
    ConnectCarries(s, s', i, l, h, stream, n);
    ConnectTables(s, s', i, l, h, stream, n);
    KernelStep(s, s', i, Completion(l, l, true, n));
  }

  // ---- Steps that leave every holder's view alone

  ghost predicate Undisturbed(s: State, s': State) {
    && s'.kernel == s.kernel && s'.dropped == s.dropped && s'.workers == s.workers && s'.listener == s.listener
    && s'.ctxs.Keys == s.ctxs.Keys
    && (s.exiting ==> s'.exiting)
    && (forall d :: d in s.ctxs ==> Same(s, s', d))
  }

  lemma UndisturbedHolders(s: State, s': State, extra: seq<Packet>)
    requires Holders(s) && Undisturbed(s, s')
    requires s'.queue == s.queue + extra && forall i :: 0 <= i < |extra| ==> extra[i] == ExitPacket
    requires extra != [] ==> s'.exiting
    requires s'.main == ArmPost ==> s.main == ArmPost
    ensures Holders(s')
  {
    forall i | 0 <= i < |s'.kernel| ensures PendingOk(s', s'.kernel[i]) {
      PendingKept(s, s', s.kernel[i]);
    }
    forall i | 0 <= i < |s'.queue| ensures PacketOk(s', s'.queue[i]) {
      if i < |s.queue| {
        PacketKept(s, s', s.queue[i]);
      }
    }
    forall i | 0 <= i < |s'.dropped| ensures DroppedOk(s', s'.dropped[i]) {
      DroppedKept(s, s', s.dropped[i]);
    }
    forall i | 0 <= i < |s'.workers| ensures WorkerOk(s', s'.workers[i]) {
      UndisturbedWorker(s, s', s.workers[i]);
    }
    if s'.main == ArmPost {
      assert Same(s, s', s.listener.value);
    }
  }

  lemma UndisturbedWorker(s: State, s': State, wk: Worker)
    requires WorkerOk(s, wk) && Undisturbed(s, s')
    ensures WorkerOk(s', wk)
  {
    forall c | HeldCount(wk, c) > 0 ensures Same(s, s', c) {
      HeldLive(s, wk, c);
    }
    WorkerKept(s, s', wk);
  }

  lemma UndisturbedOwned(s: State, s': State, extra: seq<Packet>)
    requires Owned(s) && Undisturbed(s, s')
    requires s'.queue == s.queue + extra && forall i :: 0 <= i < |extra| ==> extra[i] == ExitPacket
    requires forall c :: MainHolds(s', c) == MainHolds(s, c)
    ensures Owned(s')
  {
    forall c: CtxId ensures Places(s', c) == if c in s'.ctxs then 1 else 0 {
      SumConcat(s.queue, extra, QueueHolds(c));
      SumZero(extra, QueueHolds(c));
      assert Places(s, c) == if c in s.ctxs then 1 else 0;
      assert c in s'.ctxs <==> c in s'.ctxs.Keys;
    }
  }

  ghost predicate UndisturbedMove(s: State, s': State, extra: seq<Packet>) {
    && Undisturbed(s, s')
    && s'.queue == s.queue + extra
    && (forall i :: 0 <= i < |extra| ==> extra[i] == ExitPacket)
    && (extra != [] ==> s'.exiting)
    && (s'.main == ArmPost ==> s.main == ArmPost)
    && (forall c :: MainHolds(s', c) == MainHolds(s, c))
    && Tables(s')
  }

  lemma UndisturbedStep(s: State, s': State, extra: seq<Packet>)
    requires Inv(s) && UndisturbedMove(s, s', extra)
    ensures Inv(s')
  {
    UndisturbedHolders(s, s', extra);
    UndisturbedOwned(s, s', extra);
  }

  lemma PeerSendTables(s: State, s': State, p: PeerId, data: Bytes)
    requires Tables(s) && StepPeerSend(s, p, data) == Some(s')
    ensures Tables(s')
  {
    forall k | 0 <= k < |s'.objs| ensures ObjOk(s', k) {
      assert ObjOk(s, k);
    }
  }

  lemma PeerSendLook(s: State, s': State, p: PeerId, data: Bytes, sk: Socket)
    requires PeersOk(s) && StepPeerSend(s, p, data) == Some(s')
    ensures LookAt(s', sk) == LookAt(s, sk)
  {
    if sk in s.peerOf && s.peerOf[sk] == p {
      assert s'.peers[p].stream[..s.peers[p].taken] == s.peers[p].stream[..s.peers[p].taken];
    }
  }

  lemma PeerSendSame(s: State, s': State, p: PeerId, data: Bytes, d: CtxId)
    requires PeersOk(s) && StepPeerSend(s, p, data) == Some(s') && d in s.ctxs
    ensures Same(s, s', d)
  {
    if s.ctxs[d].socket.Some? {
      PeerSendLook(s, s', p, data, s.ctxs[d].socket.value);
    }
    if s.ctxs[d].accepted.Some? {
      PeerSendLook(s, s', p, data, s.ctxs[d].accepted.value);
    }
  }

  lemma PeerSendUndisturbed(s: State, s': State, p: PeerId, data: Bytes)
    requires Tables(s) && StepPeerSend(s, p, data) == Some(s')
    ensures UndisturbedMove(s, s', [])
  {
    forall d | d in s.ctxs ensures Same(s, s', d) {
      PeerSendSame(s, s', p, data, d);
    }
    PeerSendTables(s, s', p, data);
    assert s'.queue == s.queue + [];
  }

  lemma PeerSendKeeps(s: State, s': State, p: PeerId, data: Bytes)
    requires Inv(s) && StepPeerSend(s, p, data) == Some(s')
    ensures Inv(s')
  {
    PeerSendUndisturbed(s, s', p, data);
    UndisturbedStep(s, s', []);
  }

  // ---- The main thread

  /** Before the listening context exists nobody holds anything. */
  lemma NothingYet(s: State)
    requires Inv(s) && s.listener == None
    ensures s.kernel == [] && s.queue == [] && s.dropped == []
    ensures forall i :: 0 <= i < |s.workers| ==> s.workers[i] == Idle || s.workers[i] == Returned
  {
    forall i | 0 <= i < |s.workers| ensures s.workers[i] == Idle || s.workers[i] == Returned {
      WorkerNeedsListener(s, s.workers[i]);
    }
    if s.kernel != [] {
      PendingNeedsListener(s, s.kernel[0]);
    }
    if s.queue != [] {
      PacketNeedsListener(s, s.queue[0]);
    }
    if s.dropped != [] {
      DroppedNeedsListener(s, s.dropped[0]);
    }
  }

  lemma PendingNeedsListener(s: State, p: Pending)
    requires s.listener == None
    ensures !PendingOk(s, p)
  {
  }

  lemma PacketNeedsListener(s: State, p: Packet)
    requires s.listener == None && !s.exiting
    ensures !PacketOk(s, p)
  {
  }

  lemma DroppedNeedsListener(s: State, c: CtxId)
    requires s.listener == None
    ensures !DroppedOk(s, c)
  {
  }

  lemma WorkerNeedsListener(s: State, wk: Worker)
    requires s.listener == None && !s.exiting
    ensures WorkerOk(s, wk) ==> wk == Idle || wk == Returned
  {
  }

  lemma ListenTables(s: State, s': State, h: Socket, l: CtxId)
    requires Tables(s) && s.main == Listening && h !in s.open && s.ctxs == map[] && s.locker == None
    requires s' == s.(ctxs := s.ctxs[l := NewCtx(h, IOAccept)], open := s.open + {h}, keyOf := s.keyOf[h := l],
                      listener := Some(l), main := Arming)
    ensures Tables(s')
  {
    ObjsKept(s, s');
  }

  lemma ListenShape(s: State, s': State, ch: Choice)
    requires Tables(s) && s.main == Listening && StepMain(s, ch) == Some(s')
    ensures ch.sock !in s.open && s.ctxs == map[] && s.locker == None
    ensures s' == s.(ctxs := s.ctxs[ch.addr := NewCtx(ch.sock, IOAccept)], open := s.open + {ch.sock},
                     keyOf := s.keyOf[ch.sock := ch.addr], listener := Some(ch.addr), main := Arming)
  {
  }

  lemma ListenHolders(s': State)
    requires s'.kernel == [] && s'.queue == [] && s'.dropped == [] && s'.main == Arming
    requires forall i :: 0 <= i < |s'.workers| ==> s'.workers[i] == Idle || s'.workers[i] == Returned
    ensures Holders(s')
  {
    forall i | 0 <= i < |s'.workers| ensures WorkerOk(s', s'.workers[i]) {
    }
  }

  lemma ListenKeeps(s: State, s': State, ch: Choice)
    requires Inv(s) && s.main == Listening && StepMain(s, ch) == Some(s')
    ensures Inv(s')
  {
    NothingYet(s);
    ListenShape(s, s', ch);
    ListenTables(s, s', ch.sock, ch.addr);
    ListenOwned(s, s', ch.addr);
    ListenHolders(s');
    hide Tables, Owned, Holders;
  }

  lemma ListenOwned(s: State, s': State, l: CtxId)
    requires s.kernel == [] && s.queue == [] && s.dropped == [] && s.ctxs == map[]
    requires forall i :: 0 <= i < |s.workers| ==> s.workers[i] == Idle || s.workers[i] == Returned
    requires s'.kernel == s.kernel && s'.queue == s.queue && s'.dropped == s.dropped && s'.workers == s.workers
    requires s'.ctxs.Keys == {l} && s'.listener == Some(l) && s'.main == Arming
    ensures Owned(s')
  {
    forall c: CtxId ensures Places(s', c) == if c in s'.ctxs then 1 else 0 {
      SumZero(s'.workers, WorkerHolds(c));
      assert c in s'.ctxs <==> c in s'.ctxs.Keys;
    }
  }

  lemma ArmKeeps(s: State, s': State, ch: Choice)
    requires Inv(s) && s.main == Arming && StepMain(s, ch) == Some(s')
    ensures Inv(s')
  {
    var l := s.listener.value;
    ArmShape(s, s', ch);
    AcceptTables(s, s', l, Some(ch.sock));
    NewSocketArmed(s, s', l, ch.sock);
    ArmHolders(s, s', l, ch.sock);
    ArmOwned(s, s');
  }

  lemma ArmShape(s: State, s': State, ch: Choice)
    requires s.main == Arming && StepMain(s, ch) == Some(s') && Tables(s)
    ensures s.listener.Some? && AcceptStep(s, s', s.listener.value, Some(ch.sock))
    ensures s'.kernel == s.kernel && s'.queue == s.queue && s'.dropped == s.dropped && s'.workers == s.workers
    ensures s'.main == ArmPost && s'.exiting == s.exiting && s'.ctxs.Keys == s.ctxs.Keys
    ensures LockerOk(s') && MainPhaseOk(s')
  {
  }

  lemma ArmOwned(s: State, s': State)
    requires Owned(s) && s.main == Arming && s'.main == ArmPost && s'.listener == s.listener
    requires s'.kernel == s.kernel && s'.queue == s.queue && s'.dropped == s.dropped && s'.workers == s.workers
    requires s'.ctxs.Keys == s.ctxs.Keys
    ensures Owned(s')
  {
    forall c: CtxId ensures Places(s', c) == if c in s'.ctxs then 1 else 0 {
      assert Places(s, c) == if c in s.ctxs then 1 else 0;
      assert c in s'.ctxs <==> c in s'.ctxs.Keys;
    }
  }

  lemma ArmElsewhere(s: State, s': State, l: CtxId, h: Socket)
    requires KeysOk(s) && AcceptStep(s, s', l, Some(h)) && s'.exiting == s.exiting
    ensures Elsewhere(s, s', l)
  {
    hide Same, KeysOk;
    forall d | d in s.ctxs && d != l ensures Same(s, s', d) {
      AcceptSame(s, s', l, Some(h), d);
    }
  }

  lemma ArmHolders(s: State, s': State, l: CtxId, h: Socket)
    requires Owned(s) && Holders(s) && KeysOk(s) && s.main == Arming && s.listener == Some(l)
    requires AcceptStep(s, s', l, Some(h)) && AcceptArmed(s', l)
    requires s'.kernel == s.kernel && s'.queue == s.queue && s'.dropped == s.dropped && s'.workers == s.workers
    requires s'.main == ArmPost && s'.exiting == s.exiting
    ensures Holders(s')
  {
    hide PendingOk, PacketOk, DroppedOk, WorkerOk, HeldCount, AcceptArmed, KeysOk, Owned, Elsewhere;
    MainExclusive(s, l);
    ArmElsewhere(s, s', l, h);
    assert s'.queue == s.queue + [];
    HoldersElsewhere(s, s', l, []);
  }

  lemma ArmPostKeeps(s: State, s': State, ch: Choice)
    requires Inv(s) && s.main == ArmPost && StepMain(s, ch) == Some(s')
    ensures Inv(s')
  {
    var l := s.listener.value;
    var p := Pending(l, l, AcceptOp(s.ctxs[l].accepted.value));
    ArmPostShape(s, s', ch, p);
    ArmPostOwned(s, s', p);
    ArmPostHolders(s, s', p);
    ArmPostTables(s, s');
  }

  lemma ArmPostShape(s: State, s': State, ch: Choice, p: Pending)
    requires s.main == ArmPost && StepMain(s, ch) == Some(s') && Tables(s) && MainOk(s)
    requires p == Pending(s.listener.value, s.listener.value, AcceptOp(s.ctxs[s.listener.value].accepted.value))
    ensures s' == s.(kernel := s.kernel + [p], main := Serving)
    ensures PendingOk(s, p)
  {
  }

  lemma ArmPostOwned(s: State, s': State, p: Pending)
    requires Owned(s) && s.main == ArmPost && s.listener == Some(p.ov)
    requires s' == s.(kernel := s.kernel + [p], main := Serving)
    ensures Owned(s')
  {
    forall c: CtxId ensures Places(s', c) == if c in s'.ctxs then 1 else 0 {
      SumConcat(s.kernel, [p], KernelHolds(c));
      assert Places(s, c) == if c in s.ctxs then 1 else 0;
    }
  }

  lemma ArmPostHolders(s: State, s': State, p: Pending)
    requires Holders(s) && PendingOk(s, p) && s' == s.(kernel := s.kernel + [p], main := Serving)
    ensures Holders(s')
  {
    forall c | c in s.ctxs ensures Same(s, s', c) {
      SameTablesSame(s, s', c);
    }
    forall i | 0 <= i < |s'.kernel| ensures PendingOk(s', s'.kernel[i]) {
      assert s'.kernel[i] == if i < |s.kernel| then s.kernel[i] else p;
      PendingKept(s, s', s'.kernel[i]);
    }
    forall i | 0 <= i < |s'.queue| ensures PacketOk(s', s'.queue[i]) {
      PacketKept(s, s', s.queue[i]);
    }
    forall i | 0 <= i < |s'.dropped| ensures DroppedOk(s', s'.dropped[i]) {
      DroppedKept(s, s', s.dropped[i]);
    }
    forall i | 0 <= i < |s'.workers| ensures WorkerOk(s', s'.workers[i]) {
      SameTablesWorker(s, s', s.workers[i]);
    }
  }

  lemma ArmPostTables(s: State, s': State)
    requires Tables(s) && s.main == ArmPost && s' == s.(kernel := s'.kernel, main := Serving)
    ensures Tables(s')
  {
    ObjsKept(s, s');
  }

  /** Setting a flag, moving to another phase, posting an exit packet. */
  ghost predicate PhaseMove(s: State, s': State, extra: seq<Packet>) {
    && s' == s.(running := s'.running, exiting := s'.exiting, main := s'.main, queue := s.queue + extra)
    && (forall i :: 0 <= i < |extra| ==> extra[i] == ExitPacket)
    && (extra != [] ==> s'.exiting)
    && (s.exiting ==> s'.exiting)
    && s.main != Arming && s.main != ArmPost && s'.main != Arming && s'.main != ArmPost
    && (s.main == Boot || s.main == Listening <==> s'.main == Boot || s'.main == Listening)
    && (s'.running <==> s'.main != Boot)
    && (s'.exiting <==> StoppingPhase(s'.main))
    && (s'.main.Posting? ==> s'.main.i <= |s.workers|)
  }

  lemma PhaseUndisturbed(s: State, s': State, extra: seq<Packet>)
    requires Tables(s) && PhaseMove(s, s', extra)
    ensures UndisturbedMove(s, s', extra)
  {
    PhaseTables(s, s', extra);
    hide Tables, Same;
    forall c | c in s.ctxs ensures Same(s, s', c) {
      SameTablesSame(s, s', c);
    }
  }

  lemma PhaseTables(s: State, s': State, extra: seq<Packet>)
    requires Tables(s) && PhaseMove(s, s', extra)
    ensures Tables(s')
  {
    ObjsKept(s, s');
    hide ObjsOk;
  }

  lemma CloseListenerKeeps(s: State, s': State, ch: Choice)
    requires Inv(s) && s.main == Closing && StepMain(s, ch) == Some(s')
    ensures Inv(s')
  {
    hide Owned, Holders, UndisturbedMove, PhaseMove;
    if s.ctxs[s.listener.value].socket.Some? {
      CloseListenerUndisturbed(s, s', s.listener.value, s.ctxs[s.listener.value].socket.value);
      UndisturbedStep(s, s', []);
    } else {
      CloseNothing(s, s');
      PhaseUndisturbed(s, s', []);
      UndisturbedStep(s, s', []);
    }
  }

  lemma CloseNothing(s: State, s': State)
    requires s.main == Closing && s' == s.(main := Stopped) && MainPhaseOk(s)
    ensures PhaseMove(s, s', [])
  {
    assert s'.queue == s.queue + [];
  }

  lemma CloseListenerSame(s: State, s': State, l: CtxId, sk: Socket, d: CtxId)
    requires CloseStep(s, s', l, sk) && KeysOk(s) && s.listener == Some(l) && d in s.ctxs
    ensures Same(s, s', d)
  {
    if d != l {
      CloseSame(s, s', l, sk, d);
    } else if s.ctxs[l].accepted.Some? && s.ctxs[l].accepted.value !in s.keyOf {
      assert LookAt(s', s.ctxs[l].accepted.value) == LookAt(s, s.ctxs[l].accepted.value);
    }
  }

  lemma CloseListenerTables(s: State, s': State, l: CtxId, sk: Socket)
    requires Tables(s) && s.listener == Some(l) && l in s.ctxs && s.ctxs[l].socket == Some(sk) && s.main == Closing
    requires s' == SetCtx(CloseSocket(s, sk), l, s.ctxs[l].(socket := None)).(main := Stopped)
    ensures KeysOk(s) && CloseStep(s, s', l, sk) && Tables(s')
  {
    CloseTables(s, s', l, sk);
    assert ListenerOk(s') && LockerOk(s') && MainPhaseOk(s') by {
      hide KeysOk, PeersOk, ConnsOk, ObjsOk, ListOk;
    }
    hide KeysOk, PeersOk, ConnsOk, ObjsOk, ListOk;
  }

  lemma CloseListenerUndisturbed(s: State, s': State, l: CtxId, sk: Socket)
    requires Tables(s) && s.listener == Some(l) && l in s.ctxs && s.ctxs[l].socket == Some(sk) && s.main == Closing
    requires s' == SetCtx(CloseSocket(s, sk), l, s.ctxs[l].(socket := None)).(main := Stopped)
    ensures UndisturbedMove(s, s', [])
  {
    hide Tables, KeysOk, Same, CloseStep;
    assert s'.queue == s.queue + [];
    CloseListenerTables(s, s', l, sk);
    forall d | d in s.ctxs ensures Same(s, s', d) {
      CloseListenerSame(s, s', l, sk, d);
    }
  }

  /** The phase moves of the main thread. */
  lemma PhaseOf(s: State, s': State, ch: Choice) returns (extra: seq<Packet>)
    requires StepMain(s, ch) == Some(s') && MainPhaseOk(s)
    requires s.main == Boot || s.main == Serving || s.main.Posting?
    ensures PhaseMove(s, s', extra)
  {
    extra := if s.main.Posting? && s.main.i < |s.workers| && s.port then [ExitPacket] else [];
    assert s'.queue == s.queue + extra;
  }

  lemma MainKeeps(s: State, s': State, ch: Choice)
    requires Inv(s) && StepMain(s, ch) == Some(s')
    ensures Inv(s')
  {
    if s.main == Listening {
      ListenKeeps(s, s', ch);
    } else if s.main == Arming {
      ArmKeeps(s, s', ch);
    } else if s.main == ArmPost {
      ArmPostKeeps(s, s', ch);
    } else if s.main == Closing {
      CloseListenerKeeps(s, s', ch);
    } else {
      var extra := PhaseOf(s, s', ch);
      PhaseUndisturbed(s, s', extra);
      UndisturbedStep(s, s', extra);
    }
  }

  // ---- All steps, all runs

  /** A worker moved: it left the tables alone, or it disturbed nobody but the holder it is. */
  ghost predicate WorkerMoved(s: State, s': State, w: nat, posted: seq<Pending>, dropped: seq<CtxId>) {
    w < |s.workers| && (QuietMove(s, s', w, posted, dropped) || LoudMove(s, s', w, posted, dropped))
  }

  lemma MovedKeeps(s: State, s': State, w: nat, posted: seq<Pending>, dropped: seq<CtxId>)
    requires Inv(s) && WorkerMoved(s, s', w, posted, dropped)
    ensures Inv(s')
  {
    hide Inv, QuietMove, LoudMove;
    if QuietMove(s, s', w, posted, dropped) {
      QuietStep(s, s', w, posted, dropped);
    } else {
      LoudStep(s, s', w, posted, dropped);
    }
  }

  lemma LoopMoved(s: State, s': State, w: nat, ch: Choice) returns (dropped: seq<CtxId>)
    requires w < |s.workers| && WorkerOk(s, s.workers[w]) && Tables(s) && StepWorker(s, w, ch) == Some(s')
    requires s.workers[w] != Idle && !Accepting(s.workers[w]) && !Receiving(s.workers[w]) && !s.workers[w].Disc?
    ensures WorkerMoved(s, s', w, [], dropped)
  {
    TablesSay(s);
    hide WorkerOk, Tables, LockerOk, ListenerOk, KeysOk, QuietMove, LoudMove, WorkerMoves, DispatchTo;
    match s.workers[w]
    case Dequeued(p) =>
      dropped := if s.exiting || !s.running then Tokens(p) else [];
      CheckMoves(s, s', w, p, dropped);
    case Dispatching(p) =>
      dropped := [];
      DispatchMoves(s, s', w, p);
  }

  lemma DiscMoved(s: State, s': State, w: nat, stage: Stage, c: CtxId, back: Option<CtxId>)
    requires w < |s.workers| && s.workers[w] == Disc(stage, c, back) && WorkerOk(s, s.workers[w]) && Tables(s)
    requires StepDisc(s, w, stage, c, back) == Some(s')
    ensures WorkerMoved(s, s', w, [], [])
  {
    TablesSay(s);
    hide WorkerOk, Tables, LockerOk, ListenerOk, KeysOk, QuietMove, LoudMove, StepDiscLock, StepDiscTest,
         StepDiscNotify, StepDiscErase, StepDiscClose, WorkerMoves, CloseStep;
    match stage
    case Lock => DiscLockMoves(s, s', w, c, back);
    case TestSocket => DiscTestMoves(s, s', w, c, back);
    case Notify => NotifyMoves(s, s', w, c, back);
    case Erase =>
      var sk := EraseShape(s, s', w, c, back);
      EraseMoves(s, s', w, c, back, sk);
    case Close =>
      CloseShape(s, s', w, c, back);
      CloseMoves(s, s', w, c, back, s.ctxs[c].socket.value);
    case Remove => RemoveMoves(s, s', w, c, back);
    case Free => FreeMoves(s, s', w, c, back);
    case Unlock => DiscUnlockMoves(s, s', w, c, back);
  }

  lemma AcceptingMoved(s: State, s': State, w: nat, ch: Choice) returns (posted: seq<Pending>, dropped: seq<CtxId>)
    requires w < |s.workers| && WorkerOk(s, s.workers[w]) && Tables(s) && StepWorker(s, w, ch) == Some(s')
    requires Accepting(s.workers[w])
    ensures WorkerMoved(s, s', w, posted, dropped)
  {
    hide WorkerOk, Tables, WorkerMoved, StepWorker;
    posted, dropped := [], [];
    if s.workers[w].AccList? || s.workers[w].AccMap? || s.workers[w].AccDeliver? || s.workers[w].AccRecv? {
      posted := AdmittingMoved(s, s', w, ch);
    } else if s.workers[w].AccPost? {
      posted, dropped := PostingMoved(s, s', w, s.workers[w].a, ch);
    } else if s.workers[w].AccSocket? {
      StepsAccSocket(s, w, s.workers[w].a, ch);
      dropped := RearmingMoved(s, s', w, s.workers[w].a, ch);
    } else {
      dropped := AcceptedMoved(s, s', w, ch);
    }
  }

  lemma StepsAccSocket(s: State, w: nat, a: CtxId, ch: Choice)
    requires w < |s.workers| && s.workers[w] == AccSocket(a)
    ensures StepWorker(s, w, ch) == StepAccSocket(s, w, a, ch)
  {
  }

  /** From push_front to the first receive. */
  lemma AdmittingMoved(s: State, s': State, w: nat, ch: Choice) returns (posted: seq<Pending>)
    requires w < |s.workers| && WorkerOk(s, s.workers[w]) && Tables(s) && StepWorker(s, w, ch) == Some(s')
    requires s.workers[w].AccList? || s.workers[w].AccMap? || s.workers[w].AccDeliver? || s.workers[w].AccRecv?
    ensures WorkerMoved(s, s', w, posted, [])
  {
    hide WorkerOk, Tables, QuietMove, LoudMove, StepAccMap, StepAccDeliver, StepAccRecv, MapStep;
    posted := [];
    match s.workers[w]
    case AccList(a, n, c) => AccListMoves(s, s', w, a, n, c);
    case AccMap(a, n, c) =>
      var sk, p := MapShape(s, s', w, a, n, c);
      MapMoves(s, s', w, a, n, c, sk, p);
    case AccDeliver(a, n, c, k) => AccDeliverMoves(s, s', w, a, n, c, k);
    case AccRecv(a, c) => posted := FirstRecvMoves(s, s', w, a, c, ch);
  }

  /** setsockopt and updateCompletionPort. */
  lemma AcceptedMoved(s: State, s': State, w: nat, ch: Choice) returns (dropped: seq<CtxId>)
    requires w < |s.workers| && WorkerOk(s, s.workers[w]) && Tables(s) && StepWorker(s, w, ch) == Some(s')
    requires s.workers[w].AccOption? || s.workers[w].AccCreate?
    ensures WorkerMoved(s, s', w, [], dropped)
  {
    TablesSay(s);
    AcceptingIsListener(s, s.workers[w]);
    hide WorkerOk, Tables, LockerOk, ListenerOk, KeysOk, QuietMove, LoudMove, WorkerMoves, StepAccOption,
         StepAccCreate, CreateStep, IsListener;
    dropped := [];
    match s.workers[w]
    case AccOption(a, n) =>
      dropped := if ch.ok then [] else [a];
      AccOptionMoves(s, s', w, a, n, ch, dropped);
    case AccCreate(a, n) =>
      if ch.ok {
        var sk := CreateShape(s, s', w, a, n, ch);
        CreateMoves(s, s', w, a, n, ch.addr, sk);
      } else {
        CreateFails(s, s', w, a, n, ch);
        dropped := [a];
      }
  }

  /** The new accept socket, or none. */
  lemma RearmingMoved(s: State, s': State, w: nat, a: CtxId, ch: Choice) returns (dropped: seq<CtxId>)
    requires w < |s.workers| && s.workers[w] == AccSocket(a) && WorkerOk(s, s.workers[w]) && Tables(s)
    requires StepAccSocket(s, w, a, ch) == Some(s')
    ensures WorkerMoved(s, s', w, [], dropped)
  {
    AcceptingIsListener(s, s.workers[w]);
    hide WorkerOk, Tables, QuietMove, LoudMove, StepAccSocket, AcceptStep, WorkerMoves, IsListener;
    var h, lost := AccSocketShape(s, s', w, a, ch);
    dropped := lost;
    AccSocketMoves(s, s', w, a, h, dropped);
  }

  /** AcceptEx, pending or failed unnoticed. */
  lemma PostingMoved(s: State, s': State, w: nat, a: CtxId, ch: Choice)
    returns (posted: seq<Pending>, dropped: seq<CtxId>)
    requires w < |s.workers| && s.workers[w] == AccPost(a) && WorkerOk(s, s.workers[w]) && Tables(s)
    requires StepWorker(s, w, ch) == Some(s')
    ensures WorkerMoved(s, s', w, posted, dropped)
  {
    TablesSay(s);
    AcceptingIsListener(s, s.workers[w]);
    hide WorkerOk, Tables, LockerOk, ListenerOk, KeysOk, QuietMove, LoudMove, WorkerMoves, IsListener;
    posted, dropped := [], [];
    if ch.ok {
      posted := AccPostMoves(s, s', w, a, ch);
    } else {
      dropped := [a];
      GiveUpMoves(s, s', w, a, Idle);
    }
  }

  lemma CreateFails(s: State, s': State, w: nat, a: CtxId, n: nat, ch: Choice)
    requires w < |s.workers| && s.workers[w] == AccCreate(a, n) && WorkerOk(s, s.workers[w]) && LockerOk(s)
    requires IsListener(s, a) && StepAccCreate(s, w, a, n, ch) == Some(s') && !ch.ok
    ensures QuietMove(s, s', w, [], [a])
  {
    hide WorkerOk, LockerOk, QuietMove;
    GiveUpMoves(s, s', w, a, Returned);
  }

  lemma ReceivingMoved(s: State, s': State, w: nat, ch: Choice) returns (posted: seq<Pending>)
    requires w < |s.workers| && WorkerOk(s, s.workers[w]) && Tables(s) && StepWorker(s, w, ch) == Some(s')
    requires Receiving(s.workers[w])
    ensures WorkerMoved(s, s', w, posted, [])
    ensures |posted| == if s.workers[w].RcvPost? && ch.ok then 1 else 0
    ensures !s.workers[w].RcvPost? ==> |s'.workers| == |s.workers| && Receiving(s'.workers[w])
  {
    TablesSay(s);
    hide WorkerOk, Tables, LockerOk, ListenerOk, KeysOk, QuietMove, LoudMove, WorkerMoves, StepRcvCount,
         StepRcvFetch, StepRcvDeliver, StepRcvPost;
    posted := [];
    match s.workers[w]
    case RcvCount(a, ov, n) => RcvCountMoves(s, s', w, a, ov, n);
    case RcvFetch(a, ov, n) => RcvFetchMoves(s, s', w, a, ov, n);
    case RcvDeliver(a, ov, n, k) => RcvDeliverMoves(s, s', w, a, ov, n, k);
    case RcvPost(a, ov) => posted := NextRecvMoves(s, s', w, a, ov, ch);
  }

  lemma WorkerKeeps(s: State, s': State, w: nat, ch: Choice)
    requires Inv(s) && w < |s.workers| && StepWorker(s, w, ch) == Some(s')
    ensures Inv(s')
  {
    hide Inv, WorkerOk, Tables, WorkerMoved, StepDequeue, StepDisc;
    WorkerFact(s, w);
    var posted: seq<Pending>, dropped: seq<CtxId> := [], [];
    if s.workers[w] == Idle {
      DequeueKeeps(s, s', w);
    } else if s.workers[w].Disc? {
      DiscMoved(s, s', w, s.workers[w].stage, s.workers[w].c, s.workers[w].back);
      MovedKeeps(s, s', w, posted, dropped);
    } else {
      hide StepWorker;
      if Accepting(s.workers[w]) {
        posted, dropped := AcceptingMoved(s, s', w, ch);
      } else if Receiving(s.workers[w]) {
        posted := ReceivingMoved(s, s', w, ch);
      } else {
        dropped := LoopMoved(s, s', w, ch);
      }
      MovedKeeps(s, s', w, posted, dropped);
    }
  }

  lemma StepKeeps(s: State, l: Label)
    requires Inv(s) && Step(s, l).Some?
    ensures Inv(Step(s, l).value)
  {
    hide Inv;
    var s' := Step(s, l).value;
    match l
    case Work(w, ch) => WorkerKeeps(s, s', w, ch);
    case MainStep(ch) => MainKeeps(s, s', ch);
    case KernelAccept(i, stream, n) => AcceptKeeps(s, s', i, stream, n);
    case KernelAcceptFail(i) => EmptyKeeps(s, s', i, false);
    case KernelRecv(i, n) => RecvKeeps(s, s', i, n);
    case KernelRecvEnd(i, ok) => EmptyKeeps(s, s', i, ok);
    case PeerSend(p, data) => PeerSendKeeps(s, s', p, data);
  }

  lemma InitialInv(n: nat)
    ensures Inv(Initial(n))
  {
    var s := Initial(n);
    forall c: CtxId ensures Places(s, c) == 0 {
      SumZero(s.workers, WorkerHolds(c));
    }
  }

  /** The invariant holds in every state of every execution with any number of workers. */
  lemma {:induction false} ExecutionKeepsInv(n: nat, h: History, k: nat)
    requires Execution(n, h) && k <= |h.labels|
    ensures Inv(h.states[k])
  {
    hide Inv, Step, Initial;
    if k == 0 {
      InitialInv(n);
    } else {
      ExecutionKeepsInv(n, h, k - 1);
      assert StepAt(h, k - 1);
      StepKeeps(h.states[k - 1], h.labels[k - 1]);
    }
  }

  lemma ReachableInv(n: nat, s: State)
    requires Reachable(n, s)
    ensures Inv(s)
  {
    var h: History, k: nat :| Execution(n, h) && k <= |h.labels| && h.states[k] == s;
    ExecutionKeepsInv(n, h, k);
  }
}
