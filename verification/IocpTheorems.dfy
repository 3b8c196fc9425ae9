/** What the invariant means for every execution of the server. */
module IocpTheorems {
  import opened Prelude
  import opened IocpModel
  import opened IocpInvariant
  import opened IocpOwnership
  import opened IocpProgress
  import opened IocpTableSteps
  import opened IocpSystemSteps
  import IocpSockets

  // ---- Single ownership

  /** The places a context can be in, one at a time. */
  datatype Place = InKernel(i: nat) | InQueue(i: nat) | AtWorker(w: nat) | AtMain | IsDropped(i: nat)

  predicate IsAt(s: State, c: CtxId, p: Place) {
    match p
    case InKernel(i) => i < |s.kernel| && s.kernel[i].ov == c
    case InQueue(i) => i < |s.queue| && s.queue[i].Completion? && s.queue[i].ov == c
    case AtWorker(w) => w < |s.workers| && HeldCount(s.workers[w], c) > 0
    case AtMain => MainHolds(s, c) > 0
    case IsDropped(i) => i < |s.dropped| && s.dropped[i] == c
  }

  lemma Located(s: State, c: CtxId) returns (p: Place)
    requires Owned(s) && c in s.ctxs
    ensures IsAt(s, c, p)
  {
    assert Places(s, c) == 1;
    if Sum(s.kernel, KernelHolds(c)) > 0 {
      var i := SumPositive(s.kernel, KernelHolds(c));
      p := InKernel(i);
    } else if Sum(s.queue, QueueHolds(c)) > 0 {
      var i := SumPositive(s.queue, QueueHolds(c));
      p := InQueue(i);
    } else if Sum(s.workers, WorkerHolds(c)) > 0 {
      var i := SumPositive(s.workers, WorkerHolds(c));
      p := AtWorker(i);
    } else if Sum(s.dropped, DroppedIs(c)) > 0 {
      var i := SumPositive(s.dropped, DroppedIs(c));
      p := IsDropped(i);
    } else {
      p := AtMain;
    }
  }

  lemma PlaceUnique(s: State, c: CtxId, p: Place, q: Place)
    requires Owned(s) && IsAt(s, c, p) && IsAt(s, c, q)
    ensures p == q && c in s.ctxs
  {
    if p.InKernel? {
      KernelExclusive(s, p.i);
    } else if q.InKernel? {
      KernelExclusive(s, q.i);
    } else if p.AtWorker? {
      WorkerExclusive(s, p.w, c);
    } else if q.AtWorker? {
      WorkerExclusive(s, q.w, c);
    } else {
      assert Places(s, c) <= 1;
      QuietPlaces(s, c, p, q);
    }
  }

  /** Among the queue, the main thread and the dropped contexts. */
  lemma QuietPlaces(s: State, c: CtxId, p: Place, q: Place)
    requires IsAt(s, c, p) && IsAt(s, c, q) && Places(s, c) <= 1
    requires !p.InKernel? && !q.InKernel? && !p.AtWorker? && !q.AtWorker?
    ensures p == q && Places(s, c) == 1
  {
    if p.InQueue? { SumAtLeast(s.queue, p.i, QueueHolds(c)); }
    if q.InQueue? { SumAtLeast(s.queue, q.i, QueueHolds(c)); }
    if p.IsDropped? { SumAtLeast(s.dropped, p.i, DroppedIs(c)); }
    if q.IsDropped? { SumAtLeast(s.dropped, q.i, DroppedIs(c)); }
    if p.InQueue? && q.InQueue? && p.i != q.i {
      SumAtLeastTwo(s.queue, if p.i < q.i then p.i else q.i, if p.i < q.i then q.i else p.i, QueueHolds(c));
    }
    if p.IsDropped? && q.IsDropped? && p.i != q.i {
      SumAtLeastTwo(s.dropped, if p.i < q.i then p.i else q.i, if p.i < q.i then q.i else p.i, DroppedIs(c));
    }
  }

  /**
   In every reachable state, with any number of workers, every live context is in exactly one place and
   every place names only live contexts: no two workers handle one context, and neither a queued packet
   nor a pending operation ever names a freed one.
   */
  lemma SingleOwnership(n: nat, s: State)
    requires Reachable(n, s)
    ensures forall c :: c in s.ctxs ==> exists p :: IsAt(s, c, p)
    ensures forall c, p, q :: IsAt(s, c, p) && IsAt(s, c, q) ==> p == q && c in s.ctxs
  {
    ReachableInv(n, s);
    forall c | c in s.ctxs ensures exists p :: IsAt(s, c, p) {
      var p := Located(s, c);
    }
    forall c, p, q | IsAt(s, c, p) && IsAt(s, c, q) ensures p == q && c in s.ctxs {
      PlaceUnique(s, c, p, q);
    }
  }

  /**
   No worker ever dereferences a null or freed pointer, and none takes the IOConnect or IOSend case:
   every packet that is dispatched carries an overlapped pointer to a live context, the same one as its
   completion key, tagged IOAccept on the listening context and IOReceive on every other.
   */
  lemma NoBadDereference(n: nat, s: State, w: nat)
    requires Reachable(n, s) && w < |s.workers|
    ensures !s.workers[w].Crashed? && !s.workers[w].Unmodelled?
    ensures s.workers[w].Dispatching? ==>
      var p := s.workers[w].p;
      && p.Completion? && p.key == p.ov && p.ov in s.ctxs
      && s.ctxs[p.ov].tag == if s.listener == Some(p.ov) then IOAccept else IOReceive
  {
    hide Reachable, Inv, Tables, WorkerOk;
    ReachableInv(n, s);
    WorkerFact(s, w);
    DispatchedPacket(s, w);
  }

  lemma DispatchedPacket(s: State, w: nat)
    requires w < |s.workers| && WorkerOk(s, s.workers[w]) && Tables(s)
    ensures !s.workers[w].Crashed? && !s.workers[w].Unmodelled?
    ensures s.workers[w].Dispatching? ==>
      var p := s.workers[w].p;
      && p.Completion? && p.key == p.ov && p.ov in s.ctxs
      && s.ctxs[p.ov].tag == if s.listener == Some(p.ov) then IOAccept else IOReceive
  {
    hide KeysOk, PeersOk, ConnsOk, ObjsOk, ListOk, LockerOk, MainPhaseOk;
  }

  /** disconnect never works on the listening context, so "Trying to close the listening socket" is never printed. */
  lemma ListenerNeverDisconnected(n: nat, s: State, w: nat)
    requires Reachable(n, s) && w < |s.workers| && s.workers[w].Disc? && s.workers[w].stage != Unlock
    ensures
      var c := s.workers[w].c;
      && s.listener.Some? && s.listener.value in s.ctxs && s.listener != Some(c) && c in s.ctxs
      && (s.workers[w].stage == TestSocket ==> s.ctxs[c].socket != s.ctxs[s.listener.value].socket)
  {
    hide Reachable, Inv, Tables, WorkerOk;
    ReachableInv(n, s);
    WorkerFact(s, w);
    NotTheListener(s, w);
    ListenerSocketDiffers(s, s.workers[w].c);
  }

  lemma NotTheListener(s: State, w: nat)
    requires w < |s.workers| && WorkerOk(s, s.workers[w]) && s.workers[w].Disc? && s.workers[w].stage != Unlock
    ensures s.listener.Some? && s.listener != Some(s.workers[w].c) && s.workers[w].c in s.ctxs
    ensures s.workers[w].stage == TestSocket ==> s.ctxs[s.workers[w].c].socket.Some?
  {
  }

  lemma ListenerSocketDiffers(s: State, c: CtxId)
    requires Tables(s) && s.listener.Some? && c in s.ctxs && s.listener != Some(c)
    ensures s.listener.value in s.ctxs
    ensures s.ctxs[c].socket.Some? ==> s.ctxs[c].socket != s.ctxs[s.listener.value].socket
  {
    if s.ctxs[c].socket.Some? {
      assert s.keyOf[s.ctxs[c].socket.value] == c;
    }
  }

  // ---- In-order delivery

  /**
   In every reachable state, for every connection object: the bytes its callbacks were given so far are a prefix of
   what its own peer sent, in order and each byte once; different connection objects have different peers.
   */
  lemma InOrderDelivery(n: nat, s: State)
    requires Reachable(n, s)
    ensures forall k :: 0 <= k < |s.objs| ==>
      s.objs[k].peer < |s.peers| && s.objs[k].delivered <= s.peers[s.objs[k].peer].stream
    ensures forall j, k :: 0 <= j < k < |s.objs| ==> s.objs[j].peer != s.objs[k].peer
  {
    hide Inv, Reachable, ObjOk;
    ReachableInv(n, s);
    forall k | 0 <= k < |s.objs|
      ensures s.objs[k].peer < |s.peers| && s.objs[k].delivered <= s.peers[s.objs[k].peer].stream
    {
      ObjectFact(s, k);
      ObjectPrefix(s, k);
    }
    forall j, k | 0 <= j < k < |s.objs| ensures s.objs[j].peer != s.objs[k].peer {
      ObjectFact(s, j);
      ObjectFact(s, k);
      PeersDiffer(s, j, k);
    }
  }

  lemma ObjectPrefix(s: State, k: nat)
    requires k < |s.objs| && ObjOk(s, k)
    ensures s.objs[k].peer < |s.peers| && s.objs[k].delivered <= s.peers[s.objs[k].peer].stream
  {
  }

  lemma PeersDiffer(s: State, j: nat, k: nat)
    requires j < k < |s.objs| && ObjOk(s, j) && ObjOk(s, k)
    ensures s.objs[j].peer != s.objs[k].peer
  {
  }

  lemma ObjectFact(s: State, k: nat)
    requires Inv(s) && k < |s.objs|
    ensures ObjOk(s, k)
  {
  }

  /**
   Whenever a receive is pending on a context, its map entry leads to the connection object of the socket's
   own peer, and that object has been given every byte the system has copied for the peer: a buffer is
   armed again only after its callback has returned, and nothing is skipped, the bytes of the accept
   completion included.
   */
  lemma ArmedMeansDrained(n: nat, s: State, i: nat)
    requires Reachable(n, s) && i < |s.kernel| && s.kernel[i].op.RecvOp?
    ensures
      var sk := s.kernel[i].op.sock;
      && sk in s.peerOf && s.peerOf[sk] < |s.peers|
      && sk in s.conns && s.conns[sk].Some? && s.conns[sk].value < |s.objs|
      && var (o, p) := (s.objs[s.conns[sk].value], s.peers[s.peerOf[sk]]);
         && o.peer == s.peerOf[sk] && p.taken <= |p.stream|
         && o.delivered == p.stream[..p.taken]
  {
    ReachableInv(n, s);
    ArmedFact(s, s.kernel[i]);
  }

  lemma ArmedFact(s: State, p: Pending)
    requires PendingOk(s, p) && p.op.RecvOp? && PeersOk(s)
    ensures
      var sk := p.op.sock;
      && sk in s.peerOf && s.peerOf[sk] < |s.peers|
      && sk in s.conns && s.conns[sk].Some? && s.conns[sk].value < |s.objs|
      && var (o, p) := (s.objs[s.conns[sk].value], s.peers[s.peerOf[sk]]);
         && o.peer == s.peerOf[sk] && p.taken <= |p.stream|
         && o.delivered == p.stream[..p.taken]
  {
    var v := Look(s, p.ov);
    assert v.ctx.buffer[..0] == [];
    assert v.sock.value.obj.value.delivered + [] == v.sock.value.obj.value.delivered;
  }

  /** Connection object `k` in a later state. */
  ghost predicate LaterObject(o: Conn, o': Conn) {
    && o.delivered <= o'.delivered
    && o'.peer == o.peer && o'.socket == o.socket
    && o.closed <= o'.closed <= 1
    && (o.closed == 1 ==> o'.delivered == o.delivered)
  }

  /**
   Along every execution the bytes delivered to a connection object only grow at the end, onDisconnected is called
   at most once, and nothing is delivered after it.
   */
  lemma {:induction false} CallbackHistory(n: nat, h: History, i: nat, j: nat, k: nat)
    requires Execution(n, h) && i <= j <= |h.labels| && k < |h.states[i].objs|
    ensures k < |h.states[j].objs| && LaterObject(h.states[i].objs[k], h.states[j].objs[k])
  {
    hide Inv, Step, Initial;
    ExecutionKeepsInv(n, h, j);
    if i == j {
      ClosedOnce(h.states[j], k);
    } else {
      CallbackHistory(n, h, i, j - 1, k);
      ExecutionKeepsInv(n, h, j - 1);
      assert StepAt(h, j - 1);
      DeliveryOnlyGrows(h.states[j - 1], h.labels[j - 1], k);
    }
  }

  lemma ClosedOnce(s: State, k: nat)
    requires Inv(s) && k < |s.objs|
    ensures s.objs[k].closed <= 1
  {
    hide Inv;
    ObjectFact(s, k);
  }

  /**
   Nothing is skipped at the end either: once onDisconnected has been called, the connection has been given
   every byte the system ever copied for its peer.
   */
  lemma ClosedMeansDrained(n: nat, s: State, k: nat)
    requires Reachable(n, s) && k < |s.objs| && s.objs[k].closed == 1
    ensures
      var o := s.objs[k];
      && o.peer < |s.peers| && s.peers[o.peer].taken <= |s.peers[o.peer].stream|
      && o.delivered == s.peers[o.peer].stream[..s.peers[o.peer].taken]
  {
    hide Reachable, Owned, Holders;
    ReachableInv(n, s);
    ObjectFact(s, k);
  }

  lemma DeliveryOnlyGrows(s: State, l: Label, k: nat)
    requires Inv(s) && Step(s, l).Some? && k < |s.objs|
    ensures var s' := Step(s, l).value;
      k < |s'.objs| && LaterObject(s.objs[k], s'.objs[k])
  {
    var s' := Step(s, l).value;
    StepKeeps(s, l);
    ObjectsPersist(s, l, k);
    ClosedOnce(s', k);
    if l.Work? {
      assert WorkerOk(s, s.workers[l.w]);
      ClosedIsSilent(s, l.w, l.ch, k);
    }
  }

  lemma ObjectsPersist(s: State, l: Label, k: nat)
    requires Step(s, l).Some? && k < |s.objs|
    ensures ObjectGrows(s, Step(s, l).value, k)
    ensures !l.Work? ==> Step(s, l).value.objs[k] == s.objs[k]
  {
    hide StepWorker, StepMain;
    match l
    case Work(w, ch) => WorkerObjects(s, Step(s, l).value, w, ch, k);
    case MainStep(ch) => MainRests(s, Step(s, l).value, ch);
    case _ => SystemRests(s, l);
  }

  ghost predicate ObjectGrows(s: State, s': State, k: nat)
    requires k < |s.objs|
  {
    && k < |s'.objs|
    && s.objs[k].delivered <= s'.objs[k].delivered
    && s'.objs[k].peer == s.objs[k].peer && s'.objs[k].socket == s.objs[k].socket
    && s.objs[k].closed <= s'.objs[k].closed
  }

  /** A callback has appended to the bytes delivered to object `k`, and changed nothing else about the objects. */
  lemma DeliverGrows(s: State, t: State, a: CtxId, n: nat, j: ConnId, k: nat)
    requires Deliver(s, a, n, j) == Some(t) && k < |s.objs|
    ensures ObjectGrows(s, t, k) && (t.objs[k].delivered != s.objs[k].delivered ==> j == k)
  {
  }

  lemma AccDeliverGrows(s: State, s': State, w: nat, a: CtxId, n: nat, c: CtxId, j: ConnId, k: nat)
    requires w < |s.workers| && StepAccDeliver(s, w, a, n, c, j) == Some(s') && k < |s.objs|
    ensures ObjectGrows(s, s', k) && (s'.objs[k].delivered != s.objs[k].delivered ==> j == k)
  {
    hide Deliver;
    DeliverGrows(s, Deliver(s, a, n, j).value, a, n, j, k);
  }

  lemma RcvDeliverGrows(s: State, s': State, w: nat, a: CtxId, ov: CtxId, n: nat, j: ConnId, k: nat)
    requires w < |s.workers| && StepRcvDeliver(s, w, a, ov, n, j) == Some(s') && k < |s.objs|
    ensures ObjectGrows(s, s', k) && (s'.objs[k].delivered != s.objs[k].delivered ==> j == k)
  {
    hide Deliver;
    DeliverGrows(s, Deliver(s, a, n, j).value, a, n, j, k);
  }

  lemma NotifyGrows(s: State, s': State, w: nat, c: CtxId, back: Option<CtxId>, k: nat)
    requires w < |s.workers| && StepDiscNotify(s, w, c, back) == Some(s') && k < |s.objs|
    ensures ObjectGrows(s, s', k) && s'.objs[k].delivered == s.objs[k].delivered
  {
    if c in s.ctxs {
      var sk := s.ctxs[c].socket.value;
      if sk in s.conns && s.conns[sk].Some? && s.conns[sk].value < |s.objs| {
      } else {
      }
    }
  }

  lemma MapGrows(s: State, s': State, w: nat, a: CtxId, n: nat, c: CtxId, k: nat)
    requires w < |s.workers| && StepAccMap(s, w, a, n, c) == Some(s') && k < |s.objs|
    ensures ObjectGrows(s, s', k) && s'.objs[k].delivered == s.objs[k].delivered
  {
  }

  lemma OthersGrow(s: State, s': State, w: nat, ch: Choice, k: nat)
    requires w < |s.workers| && StepWorker(s, w, ch) == Some(s') && k < |s.objs| && !TouchesObjects(s.workers[w])
    ensures ObjectGrows(s, s', k) && s'.objs[k].delivered == s.objs[k].delivered
  {
    hide StepWorker;
    WorkerAdvances(s, s', w, ch);
  }

  lemma WorkerObjects(s: State, s': State, w: nat, ch: Choice, k: nat)
    requires w < |s.workers| && StepWorker(s, w, ch) == Some(s') && k < |s.objs|
    ensures ObjectGrows(s, s', k)
    ensures s'.objs[k].delivered != s.objs[k].delivered ==>
      (s.workers[w].AccDeliver? || s.workers[w].RcvDeliver?) && s.workers[w].k == k
  {
    hide StepDiscNotify, StepAccMap, StepAccDeliver, StepRcvDeliver, ObjectGrows;
    match s.workers[w] {
      case AccMap(a, n, c) => MapGrows(s, s', w, a, n, c, k);
      case AccDeliver(a, n, c, j) => AccDeliverGrows(s, s', w, a, n, c, j, k);
      case RcvDeliver(a, ov, n, j) => RcvDeliverGrows(s, s', w, a, ov, n, j, k);
      case Disc(stage, c, back) =>
        if stage == Notify {
          NotifyGrows(s, s', w, c, back, k);
        } else {
          hide StepWorker;
          OthersGrow(s, s', w, ch, k);
        }
      case _ =>
        hide StepWorker;
        OthersGrow(s, s', w, ch, k);
    }
  }

  lemma ClosedIsSilent(s: State, w: nat, ch: Choice, k: nat)
    requires w < |s.workers| && WorkerOk(s, s.workers[w]) && StepWorker(s, w, ch).Some? && k < |s.objs|
    requires |StepWorker(s, w, ch).value.objs| > k
    ensures s.objs[k].closed == 1 ==> StepWorker(s, w, ch).value.objs[k].delivered == s.objs[k].delivered
  {
    WorkerObjects(s, StepWorker(s, w, ch).value, w, ch, k);
    if s.workers[w].AccDeliver? {
      assert Mapped(Look(s, s.workers[w].c), s.workers[w].c, 0);
    }
  }

  // ---- The tables agree

  /** Worker `w` is creating context `c` and has not yet put it in the list, or in the map. */
  predicate Creating(wk: Worker, c: CtxId) {
    (wk.AccList? || wk.AccMap?) && wk.c == c
  }

  predicate Removing(wk: Worker, c: CtxId, stages: set<Stage>) {
    wk.Disc? && wk.stage in stages && wk.c == c
  }

  /**
   Outside its creation and removal windows, an accepted context is in all three tables; inside, in none too
   early or too late.
   */
  ghost predicate Agrees(s: State, c: CtxId) {
    && c in s.ctxs
    && var x := s.ctxs[c];
       && NothingToSend(x)
       && (c in s.list <==> forall w :: 0 <= w < |s.workers| ==>
            !(s.workers[w].AccList? && s.workers[w].c == c) && !Removing(s.workers[w], c, {Free}))
       && (x.socket.Some? <==> forall w :: 0 <= w < |s.workers| ==> !Removing(s.workers[w], c, {Remove, Free}))
       && (x.socket.Some? ==> x.socket.value in s.open && x.socket.value in s.peerOf)
       && (x.socket.Some? && x.socket.value in s.conns <==> forall w :: 0 <= w < |s.workers| ==>
            !Creating(s.workers[w], c) && !Removing(s.workers[w], c, {Close, Remove, Free}))
       && (x.socket.Some? && x.socket.value in s.conns ==>
            && s.conns[x.socket.value].Some? && s.conns[x.socket.value].value < |s.objs|
            && s.objs[s.conns[x.socket.value].value].socket == x.socket.value
            && s.objs[s.conns[x.socket.value].value].peer == s.peerOf[x.socket.value])
  }

  /** What the one holder of `c` knows decides all of it. */
  lemma AgreesAtHolder(s: State, c: CtxId, p: Place)
    requires Inv(s) && s.listener.Some? && s.listener != Some(c) && c in s.ctxs && IsAt(s, c, p)
    requires forall w :: 0 <= w < |s.workers| && p != AtWorker(w) ==> HeldCount(s.workers[w], c) == 0
    ensures Agrees(s, c)
  {
    hide Owned, Tables, Agrees, PendingOk, PacketOk, DroppedOk, WorkerOk, MainOk;
    match p
    case InKernel(i) => HolderKernel(s, c, i);
    case InQueue(i) => HolderQueue(s, c, i);
    case AtWorker(w) => HolderWorker(s, c, w);
    case IsDropped(i) => HolderDropped(s, c, i);
  }

  ghost predicate NoWorkerHolds(s: State, c: CtxId) {
    forall w :: 0 <= w < |s.workers| ==> HeldCount(s.workers[w], c) == 0
  }

  /** A settled context: mapped, listed and held by no worker. */
  lemma SettledAgrees(s: State, c: CtxId)
    requires Mapped(Look(s, c), c, 0) && Look(s, c).listed && NoWorkerHolds(s, c)
    ensures Agrees(s, c)
  {
    forall w | 0 <= w < |s.workers|
      ensures !Creating(s.workers[w], c) && !Removing(s.workers[w], c, {Close, Remove, Free})
    {
      assert HeldCount(s.workers[w], c) == 0;
    }
  }

  lemma HolderKernel(s: State, c: CtxId, i: nat)
    requires Holders(s) && s.listener != Some(c) && i < |s.kernel| && s.kernel[i].ov == c && NoWorkerHolds(s, c)
    ensures Agrees(s, c)
  {
    assert PendingOk(s, s.kernel[i]);
    SettledAgrees(s, c);
  }

  lemma HolderQueue(s: State, c: CtxId, i: nat)
    requires Holders(s) && s.listener != Some(c) && i < |s.queue| && s.queue[i].Completion? && s.queue[i].ov == c
    requires NoWorkerHolds(s, c)
    ensures Agrees(s, c)
  {
    assert PacketOk(s, s.queue[i]);
    SettledAgrees(s, c);
  }

  lemma HolderDropped(s: State, c: CtxId, i: nat)
    requires Holders(s) && s.listener != Some(c) && i < |s.dropped| && s.dropped[i] == c && NoWorkerHolds(s, c)
    ensures Agrees(s, c)
  {
    assert DroppedOk(s, s.dropped[i]);
    SettledAgrees(s, c);
  }

  lemma HolderWorker(s: State, c: CtxId, w: nat)
    requires Holders(s) && s.listener.Some? && s.listener != Some(c) && c in s.ctxs
    requires w < |s.workers| && HeldCount(s.workers[w], c) > 0
    requires forall j :: 0 <= j < |s.workers| && j != w ==> HeldCount(s.workers[j], c) == 0
    ensures Agrees(s, c)
  {
    hide WorkerOk, PendingOk, PacketOk, DroppedOk, MainOk, Agrees;
    assert WorkerOk(s, s.workers[w]);
    forall j | 0 <= j < |s.workers| && j != w
      ensures !Creating(s.workers[j], c) && !Removing(s.workers[j], c, {Close, Remove, Free})
    {
      assert HeldCount(s.workers[j], c) == 0;
    }
    HolderWorkerOnly(s, c, w);
  }

  lemma HolderWorkerOnly(s: State, c: CtxId, w: nat)
    requires s.listener.Some? && s.listener != Some(c) && c in s.ctxs
    requires w < |s.workers| && WorkerOk(s, s.workers[w]) && HeldCount(s.workers[w], c) > 0
    requires forall j :: 0 <= j < |s.workers| && j != w ==>
      !Creating(s.workers[j], c) && !Removing(s.workers[j], c, {Close, Remove, Free})
    ensures Agrees(s, c)
  {
    hide WorkerOk, HeldCount;
    HolderTables(s, c, s.workers[w]);
  }

  /** What the statement that a worker is about to execute says about the tables of the context it holds. */
  lemma HolderTables(s: State, c: CtxId, wk: Worker)
    requires s.listener.Some? && s.listener != Some(c) && c in s.ctxs && WorkerOk(s, wk) && HeldCount(wk, c) > 0
    ensures c in s.list <==> !(wk.AccList? && wk.c == c) && !Removing(wk, c, {Free})
    ensures NothingToSend(s.ctxs[c])
    ensures s.ctxs[c].socket.Some? <==> !Removing(wk, c, {Remove, Free})
    ensures s.ctxs[c].socket.Some? ==> s.ctxs[c].socket.value in s.open && s.ctxs[c].socket.value in s.peerOf
    ensures s.ctxs[c].socket.Some? && s.ctxs[c].socket.value in s.conns <==>
      !Creating(wk, c) && !Removing(wk, c, {Close, Remove, Free})
    ensures s.ctxs[c].socket.Some? && s.ctxs[c].socket.value in s.conns ==>
      var sk := s.ctxs[c].socket.value;
      && s.conns[sk].Some? && s.conns[sk].value < |s.objs|
      && s.objs[s.conns[sk].value].socket == sk && s.objs[s.conns[sk].value].peer == s.peerOf[sk]
  {
    var v := Look(s, c);
    if wk.Disc? {
      assert wk.c == c && wk.stage != Unlock;
    } else if Accepting(wk) {
      assert wk.a != c;
    }
  }

  /**
   In every reachable state the connection map, the context list and the open sockets agree on every
   accepted context, up to the window in which a worker is creating or removing just that context, although
   the system reuses handle values as soon as they are closed. The map and the list hold nothing else, and
   an open handle that is not the socket of a live context is the accept socket of the listening one.
   */
  lemma TablesAgree(n: nat, s: State)
    requires Reachable(n, s)
    ensures forall c :: c in s.ctxs && s.listener != Some(c) ==> Agrees(s, c)
    ensures forall c :: c in s.list ==> c in s.ctxs && s.listener != Some(c)
    ensures forall i, j :: 0 <= i < j < |s.list| ==> s.list[i] != s.list[j]
    ensures forall sk :: sk in s.conns ==>
      sk in s.keyOf && s.keyOf[sk] in s.ctxs && s.listener != Some(s.keyOf[sk])
      && s.ctxs[s.keyOf[sk]].socket == Some(sk)
    ensures forall c, d :: c in s.ctxs && d in s.ctxs && c != d && s.ctxs[c].socket.Some? ==>
      s.ctxs[c].socket != s.ctxs[d].socket
    ensures forall sk :: sk in s.open ==>
      || (sk in s.keyOf && s.keyOf[sk] in s.ctxs && s.ctxs[s.keyOf[sk]].socket == Some(sk))
      || (s.listener.Some? && s.listener.value in s.ctxs && s.ctxs[s.listener.value].accepted == Some(sk))
  {
    hide Reachable, Agrees;
    ReachableInv(n, s);
    IocpSockets.OpenSockets(n, s);
    forall c | c in s.ctxs && s.listener != Some(c) ensures Agrees(s, c) {
      var p := Located(s, c);
      forall w | 0 <= w < |s.workers| && p != AtWorker(w) ensures HeldCount(s.workers[w], c) == 0 {
        if HeldCount(s.workers[w], c) > 0 {
          PlaceUnique(s, c, p, AtWorker(w));
        }
      }
      AgreesAtHolder(s, c, p);
    }
    TablesOnly(s);
  }

  lemma TablesOnly(s: State)
    requires Tables(s)
    ensures forall c :: c in s.list ==> c in s.ctxs && s.listener != Some(c)
    ensures forall i, j :: 0 <= i < j < |s.list| ==> s.list[i] != s.list[j]
    ensures forall sk :: sk in s.conns ==>
      sk in s.keyOf && s.keyOf[sk] in s.ctxs && s.listener != Some(s.keyOf[sk])
      && s.ctxs[s.keyOf[sk]].socket == Some(sk)
    ensures forall c, d :: c in s.ctxs && d in s.ctxs && c != d && s.ctxs[c].socket.Some? ==>
      s.ctxs[c].socket != s.ctxs[d].socket
  {
  }

  /** In every reachable state no context has begun a send, so whatever sends on it begins at its first byte. */
  lemma NoSendBegun(n: nat, s: State, c: CtxId)
    requires Reachable(n, s) && c in s.ctxs
    ensures s.ctxs[c].totalBytes == 0 && s.ctxs[c].sentBytes == 0
  {
    hide Reachable;
    ReachableInv(n, s);
    if s.listener == Some(c) {
      assert ListenerOk(s);
    } else {
      TablesAgree(n, s);
    }
  }

  /** handle_receive always finds the socket in the map, and a connection object of that socket there. */
  lemma SocketAlwaysExists(n: nat, s: State, w: nat)
    requires Reachable(n, s) && w < |s.workers| && (s.workers[w].RcvCount? || s.workers[w].RcvFetch?)
    ensures
      var a := s.workers[w].a;
      && a in s.ctxs && s.ctxs[a].socket.Some?
      && var sk := s.ctxs[a].socket.value;
         && sk in s.conns && s.conns[sk].Some? && s.conns[sk].value < |s.objs| && s.objs[s.conns[sk].value].socket == sk
  {
    hide Reachable, Inv, Tables, WorkerOk;
    ReachableInv(n, s);
    WorkerFact(s, w);
    SocketFound(s, w);
  }

  lemma SocketFound(s: State, w: nat)
    requires w < |s.workers| && WorkerOk(s, s.workers[w]) && (s.workers[w].RcvCount? || s.workers[w].RcvFetch?)
    requires Tables(s)
    ensures
      var a := s.workers[w].a;
      && a in s.ctxs && s.ctxs[a].socket.Some?
      && var sk := s.ctxs[a].socket.value;
         && sk in s.conns && s.conns[sk].Some? && s.conns[sk].value < |s.objs| && s.objs[s.conns[sk].value].socket == sk
  {
    hide ListenerOk, KeysOk, PeersOk, ObjsOk, ListOk, LockerOk, MainPhaseOk;
    assert InReceive(s, s.workers[w].a, s.workers[w].ov, s.workers[w].n);
  }
}
