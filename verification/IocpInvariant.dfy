/**
 The invariant of the completion-port engine. Its heart is an ownership discipline that the code never
 writes down: every socket context that has been allocated and not freed is in exactly one place, a
 pending operation of the system, a queued packet, a worker, the main thread or the list of dropped
 contexts. What each holder may rely on is stated over a view of the one context it holds, so a step
 disturbs nobody but its own thread.
 */
module IocpInvariant {
  import opened Prelude
  import opened IocpModel

  // ---- Who holds a context

  function KernelHolds(c: CtxId): Pending -> nat {
    (p: Pending) => if p.ov == c then 1 else 0
  }

  function QueueHolds(c: CtxId): Packet -> nat {
    (p: Packet) => if p.Completion? && p.ov == c then 1 else 0
  }

  function DroppedIs(c: CtxId): CtxId -> nat {
    (d: CtxId) => if d == c then 1 else 0
  }

  function One(a: CtxId, c: CtxId): nat {
    if a == c then 1 else 0
  }

  function HeldCount(wk: Worker, c: CtxId): nat {
    match wk
    case Dequeued(p) => QueueHolds(c)(p)
    case Dispatching(p) => QueueHolds(c)(p)
    case AccOption(a, _) => One(a, c)
    case AccCreate(a, _) => One(a, c)
    case AccList(a, _, d) => One(a, c) + One(d, c)
    case AccMap(a, _, d) => One(a, c) + One(d, c)
    case AccDeliver(a, _, d, _) => One(a, c) + One(d, c)
    case AccRecv(a, d) => One(a, c) + One(d, c)
    case AccSocket(a) => One(a, c)
    case AccPost(a) => One(a, c)
    case RcvCount(_, ov, _) => One(ov, c)
    case RcvFetch(_, ov, _) => One(ov, c)
    case RcvDeliver(_, ov, _, _) => One(ov, c)
    case RcvPost(_, ov) => One(ov, c)
    case Disc(stage, d, back) =>
      (if stage != Unlock then One(d, c) else 0) + (if back.Some? then One(back.value, c) else 0)
    case _ => 0
  }

  function WorkerHolds(c: CtxId): Worker -> nat {
    (wk: Worker) => HeldCount(wk, c)
  }

  function MainHolds(s: State, c: CtxId): nat {
    if (s.main == Arming || s.main == ArmPost) && s.listener == Some(c) then 1 else 0
  }

  /** In how many places context `c` is. */
  function Places(s: State, c: CtxId): nat {
    Sum(s.kernel, KernelHolds(c)) + Sum(s.queue, QueueHolds(c)) + Sum(s.workers, WorkerHolds(c))
    + Sum(s.dropped, DroppedIs(c)) + MainHolds(s, c)
  }

  /** Single ownership: a live context is in exactly one place, a freed one in none. */
  ghost predicate Owned(s: State) {
    forall c: CtxId :: Places(s, c) == if c in s.ctxs then 1 else 0
  }

  // ---- Views

  /** All that the tables say about one handle. Bytes the system has not copied yet are left out. */
  datatype SockView = SockView(
    open: bool, key: Option<CtxId>, entry: Option<Option<ConnId>>, obj: Option<Conn>,
    peer: Option<PeerId>, got: Bytes, conn: Option<ConnId>
  )

  function EntryAt(s: State, sk: Socket): Option<Option<ConnId>> {
    if sk in s.conns then Some(s.conns[sk]) else None
  }

  function ObjAt(s: State, sk: Socket): Option<Conn> {
    if sk in s.conns && s.conns[sk].Some? && s.conns[sk].value < |s.objs| then Some(s.objs[s.conns[sk].value]) else None
  }

  function GotOf(p: Peer): Bytes {
    if p.taken <= |p.stream| then p.stream[..p.taken] else []
  }

  function LookAt(s: State, sk: Socket): SockView {
    var peered := sk in s.peerOf && s.peerOf[sk] < |s.peers|;
    SockView(
      sk in s.open,
      if sk in s.keyOf then Some(s.keyOf[sk]) else None,
      EntryAt(s, sk),
      ObjAt(s, sk),
      if sk in s.peerOf then Some(s.peerOf[sk]) else None,
      if peered then GotOf(s.peers[s.peerOf[sk]]) else [],
      if peered then s.peers[s.peerOf[sk]].conn else None)
  }

  datatype View = NoView | View(ctx: Ctx, listed: bool, sock: Option<SockView>)

  function Look(s: State, c: CtxId): View {
    if c !in s.ctxs then NoView
    else View(s.ctxs[c], c in s.list, if s.ctxs[c].socket.Some? then Some(LookAt(s, s.ctxs[c].socket.value)) else None)
  }

  // ---- What a holder may rely on

  /** No send has been begun on the context. */
  predicate NothingToSend(x: Ctx) {
    x.totalBytes == 0 && x.sentBytes == 0
  }

  /** An accepted context with its open, associated and connected socket. */
  ghost predicate Opened(v: View, c: CtxId) {
    && v.View?
    && |v.ctx.buffer| == MAX_BUFF
    && NothingToSend(v.ctx)
    && v.ctx.accepted == None
    && v.ctx.socket.Some?
    && v.sock.Some?
    && v.sock.value.open
    && v.sock.value.key == Some(c)
    && v.sock.value.peer.Some?
  }

  /** Before its connection object exists. */
  ghost predicate Unmapped(v: View, c: CtxId) {
    Opened(v, c) && v.sock.value.entry == None && v.sock.value.conn == None
  }

  /** The map leads from the socket to the connection object of the socket's own peer. */
  ghost predicate Mapped(v: View, c: CtxId, closed: nat) {
    && Opened(v, c)
    && v.sock.value.entry.Some? && v.sock.value.entry.value.Some?
    && v.sock.value.obj.Some?
    && var o := v.sock.value.obj.value;
       && o.socket == v.ctx.socket.value
       && Some(o.peer) == v.sock.value.peer
       && v.sock.value.conn == v.sock.value.entry.value
       && o.closed == closed
  }

  /** All bytes copied so far have been delivered, except the first `n` of the buffer. */
  ghost predicate Carrying(v: View, c: CtxId, n: nat) {
    && Mapped(v, c, 0)
    && n <= MAX_BUFF
    && v.listed
    && v.sock.value.obj.value.delivered + v.ctx.buffer[..n] == v.sock.value.got
  }

  /** The state of the accept socket while the listening context is under way. */
  ghost predicate AcceptSocket(v: SockView, buffer: Bytes, n: nat, connected: bool) {
    && v.open && v.key == None && v.entry == None
    && n <= |buffer|
    && (connected ==> v.peer.Some?)
    && (v.peer.Some? ==> v.conn == None && v.got == buffer[..n])
  }

  ghost predicate IsListener(s: State, c: CtxId) {
    s.listener == Some(c) && c in s.ctxs
  }

  ghost predicate AcceptInHand(s: State, c: CtxId, n: nat, connected: bool) {
    && IsListener(s, c)
    && s.ctxs[c].accepted.Some?
    && AcceptSocket(LookAt(s, s.ctxs[c].accepted.value), s.ctxs[c].buffer, n, connected)
  }

  /** An accept socket that nothing has happened to yet. */
  ghost predicate AcceptArmed(s: State, c: CtxId) {
    && AcceptInHand(s, c, 0, false)
    && LookAt(s, s.ctxs[c].accepted.value).peer == None
  }

  ghost predicate PendingOk(s: State, p: Pending) {
    && p.key == p.ov
    && p.ov in s.ctxs
    && match p.op
       case AcceptOp(h) => AcceptArmed(s, p.ov) && s.ctxs[p.ov].accepted == Some(h)
       case RecvOp(sk, len) =>
         && s.listener.Some? && s.listener != Some(p.ov)
         && Carrying(Look(s, p.ov), p.ov, 0)
         && s.ctxs[p.ov].tag == IOReceive
         && s.ctxs[p.ov].socket == Some(sk)
         && len == MAX_BUFF
  }

  ghost predicate PacketOk(s: State, p: Packet) {
    match p
    case ExitPacket => s.exiting
    case Completion(key, ov, ok, n) =>
      && key == ov
      && ov in s.ctxs
      && s.listener.Some?
      && (!ok ==> n == 0)
      && if s.listener == Some(ov) then AcceptInHand(s, ov, n, ok)
         else Carrying(Look(s, ov), ov, n) && s.ctxs[ov].tag == IOReceive
  }

  ghost predicate DroppedOk(s: State, c: CtxId) {
    && c in s.ctxs
    && s.listener.Some?
    && (s.listener != Some(c) ==> Mapped(Look(s, c), c, 0) && Look(s, c).listed)
  }

  /** A new context and the accept bytes its listener's buffer still holds. */
  ghost predicate Newborn(s: State, a: CtxId, c: CtxId, n: nat) {
    && IsListener(s, a) && a != c
    && n <= |s.ctxs[a].buffer|
    && Opened(Look(s, c), c)
    && Look(s, c).sock.value.got == s.ctxs[a].buffer[..n]
  }

  ghost predicate InReceive(s: State, a: CtxId, ov: CtxId, n: nat) {
    a == ov && s.listener.Some? && s.listener != Some(ov) && Carrying(Look(s, ov), ov, n)
  }

  /** A context without a socket any more. */
  ghost predicate Closed(v: View) {
    v.View? && v.ctx.socket == None && v.ctx.accepted == None && NothingToSend(v.ctx)
  }

  ghost predicate DiscOk(s: State, stage: Stage, c: CtxId) {
    var v := Look(s, c);
    s.listener.Some? &&
    match stage
    case Lock => Carrying(v, c, 0) && s.listener != Some(c)
    case TestSocket => Carrying(v, c, 0) && s.listener != Some(c)
    case Notify => Carrying(v, c, 0) && s.listener != Some(c)
    case Erase => Mapped(v, c, 1) && v.listed && s.listener != Some(c)
    case Close => Opened(v, c) && v.sock.value.entry == None && v.listed && s.listener != Some(c)
    case Remove => Closed(v) && v.listed && s.listener != Some(c)
    case Free => Closed(v) && !v.listed && s.listener != Some(c)
    case Unlock => true
  }

  ghost predicate WorkerOk(s: State, wk: Worker) {
    match wk
    case Idle => true
    case Dequeued(p) => PacketOk(s, p)
    case Dispatching(p) => PacketOk(s, p) && p.Completion?
    case AccOption(a, n) => AcceptInHand(s, a, n, false)
    case AccCreate(a, n) => AcceptInHand(s, a, n, true)
    case AccList(a, n, c) => Newborn(s, a, c, n) && Unmapped(Look(s, c), c) && !Look(s, c).listed
    case AccMap(a, n, c) => Newborn(s, a, c, n) && Unmapped(Look(s, c), c) && Look(s, c).listed
    case AccDeliver(a, n, c, k) =>
      && Newborn(s, a, c, n) && Mapped(Look(s, c), c, 0) && Look(s, c).listed
      && Look(s, c).sock.value.entry == Some(Some(k))
      && Look(s, c).sock.value.obj.value.delivered == []
    case AccRecv(a, c) => IsListener(s, a) && a != c && Carrying(Look(s, c), c, 0)
    case AccSocket(a) => IsListener(s, a)
    case AccPost(a) => AcceptArmed(s, a)
    case RcvCount(a, ov, n) => InReceive(s, a, ov, n)
    case RcvFetch(a, ov, n) => InReceive(s, a, ov, n)
    case RcvDeliver(a, ov, n, k) => InReceive(s, a, ov, n) && Look(s, ov).sock.value.entry == Some(Some(k))
    case RcvPost(a, ov) => InReceive(s, a, ov, 0)
    case Disc(stage, c, back) => DiscOk(s, stage, c) && (back.Some? ==> IsListener(s, back.value))
    case Returned => true
    case Crashed => false
    case Unmodelled(_) => false
  }

  ghost predicate MainOk(s: State) {
    s.main == ArmPost ==> s.listener.Some? && AcceptArmed(s, s.listener.value)
  }

  ghost predicate Holders(s: State) {
    && (forall i :: 0 <= i < |s.kernel| ==> PendingOk(s, s.kernel[i]))
    && (forall i :: 0 <= i < |s.queue| ==> PacketOk(s, s.queue[i]))
    && (forall i :: 0 <= i < |s.dropped| ==> DroppedOk(s, s.dropped[i]))
    && (forall i :: 0 <= i < |s.workers| ==> WorkerOk(s, s.workers[i]))
    && MainOk(s)
  }

  // ---- Global consistency of the tables

  ghost predicate ListenerOk(s: State) {
    if s.listener.Some? then
      var l := s.listener.value;
      && l in s.ctxs && s.ctxs[l].tag == IOAccept && |s.ctxs[l].buffer| == MAX_BUFF && l !in s.list
      && NothingToSend(s.ctxs[l])
      && (s.ctxs[l].socket.Some? ==> s.ctxs[l].socket.value !in s.conns && s.ctxs[l].socket.value !in s.peerOf)
    else s.ctxs == map[] && (s.main == Boot || s.main == Listening)
  }

  /** Associated handles and the sockets of live contexts correspond one to one. */
  ghost predicate KeysOk(s: State) {
    && (forall sk :: sk in s.keyOf ==> sk in s.open && s.keyOf[sk] in s.ctxs && s.ctxs[s.keyOf[sk]].socket == Some(sk))
    && (forall c :: c in s.ctxs && s.ctxs[c].socket.Some? ==>
         s.ctxs[c].socket.value in s.keyOf && s.keyOf[s.ctxs[c].socket.value] == c)
  }

  ghost predicate PeersOk(s: State) {
    && (forall sk :: sk in s.peerOf ==> sk in s.open && s.peerOf[sk] < |s.peers|)
    && (forall a, b :: a in s.peerOf && b in s.peerOf && a != b ==> s.peerOf[a] != s.peerOf[b])
    && (forall p :: 0 <= p < |s.peers| ==> s.peers[p].taken <= |s.peers[p].stream|)
  }

  ghost predicate ConnsOk(s: State) {
    forall sk :: sk in s.conns ==>
      sk in s.keyOf && s.conns[sk].Some? && s.conns[sk].value < |s.objs| && s.objs[s.conns[sk].value].socket == sk
  }

  ghost predicate ObjOk(s: State, k: nat)
    requires k < |s.objs|
  {
    var o := s.objs[k];
    && o.peer < |s.peers|
    && s.peers[o.peer].conn == Some(k)
    && o.delivered <= s.peers[o.peer].stream
    && o.closed <= 1
    && (o.closed == 1 ==> o.delivered == GotOf(s.peers[o.peer]))
  }

  ghost predicate ObjsOk(s: State) {
    forall k :: 0 <= k < |s.objs| ==> ObjOk(s, k)
  }

  ghost predicate ListOk(s: State) {
    && (forall c :: c in s.list ==> c in s.ctxs)
    && (forall i, j :: 0 <= i < j < |s.list| ==> s.list[i] != s.list[j])
  }

  predicate Inside(wk: Worker) {
    wk.Disc? && wk.stage != Lock
  }

  ghost predicate LockerOk(s: State) {
    && (forall w :: 0 <= w < |s.workers| && Inside(s.workers[w]) ==> s.locker == Some(w))
    && (s.locker.Some? ==> s.locker.value < |s.workers| && Inside(s.workers[s.locker.value]))
  }

  predicate StoppingPhase(m: Main) {
    m.Posting? || m == Closing || m == Stopped
  }

  ghost predicate MainPhaseOk(s: State) {
    && (s.running <==> s.main != Boot)
    && (s.exiting <==> StoppingPhase(s.main))
    && (s.main == Boot || s.main == Listening <==> s.listener.None?)
    && (s.main.Posting? ==> s.main.i <= |s.workers|)
    && (!s.port ==> s.listener.Some? && s.listener.value in s.dropped)
  }

  ghost predicate Tables(s: State) {
    && ListenerOk(s)
    && KeysOk(s)
    && PeersOk(s)
    && ConnsOk(s)
    && ObjsOk(s)
    && ListOk(s)
    && LockerOk(s)
    && MainPhaseOk(s)
  }

  ghost predicate Inv(s: State) {
    Owned(s) && Holders(s) && Tables(s)
  }

  // ---- Framing: a holder is undisturbed as long as its own context looks the same

  ghost predicate Same(s: State, s': State, c: CtxId) {
    && s'.listener == s.listener
    && c in s.ctxs && c in s'.ctxs
    && if s.listener == Some(c) then
         && s'.ctxs[c].(socket := None) == s.ctxs[c].(socket := None)
         && (s.ctxs[c].accepted.Some? && s.ctxs[c].accepted.value !in s.keyOf ==>
              LookAt(s', s.ctxs[c].accepted.value) == LookAt(s, s.ctxs[c].accepted.value))
       else
         Look(s', c) == Look(s, c)
  }

  lemma PendingKept(s: State, s': State, p: Pending)
    requires PendingOk(s, p) && Same(s, s', p.ov)
    ensures PendingOk(s', p)
  {
  }

  lemma PacketKept(s: State, s': State, p: Packet)
    requires PacketOk(s, p) && (s.exiting ==> s'.exiting)
    requires p.Completion? ==> Same(s, s', p.ov)
    ensures PacketOk(s', p)
  {
  }

  lemma DroppedKept(s: State, s': State, c: CtxId)
    requires DroppedOk(s, c) && Same(s, s', c)
    ensures DroppedOk(s', c)
  {
  }

  predicate Accepting(wk: Worker) {
    || wk.AccOption? || wk.AccCreate? || wk.AccList? || wk.AccMap? || wk.AccDeliver? || wk.AccRecv?
    || wk.AccSocket? || wk.AccPost?
  }

  predicate Receiving(wk: Worker) {
    wk.RcvCount? || wk.RcvFetch? || wk.RcvDeliver? || wk.RcvPost?
  }

  lemma AcceptingKept(s: State, s': State, wk: Worker)
    requires WorkerOk(s, wk) && s'.listener == s.listener && Accepting(wk)
    requires forall c :: HeldCount(wk, c) > 0 ==> Same(s, s', c)
    ensures WorkerOk(s', wk)
  {
    assert HeldCount(wk, wk.a) > 0;
    if wk.AccList? || wk.AccMap? || wk.AccDeliver? || wk.AccRecv? {
      assert HeldCount(wk, wk.c) > 0;
    }
  }

  lemma ReceivingKept(s: State, s': State, wk: Worker)
    requires WorkerOk(s, wk) && s'.listener == s.listener && Receiving(wk)
    requires forall c :: HeldCount(wk, c) > 0 ==> Same(s, s', c)
    ensures WorkerOk(s', wk)
  {
    assert HeldCount(wk, wk.ov) > 0;
  }

  lemma DisconnectingKept(s: State, s': State, wk: Worker)
    requires WorkerOk(s, wk) && s'.listener == s.listener && wk.Disc?
    requires forall c :: HeldCount(wk, c) > 0 ==> Same(s, s', c)
    ensures WorkerOk(s', wk)
  {
    assert wk.stage != Unlock ==> HeldCount(wk, wk.c) > 0;
    assert wk.back.Some? ==> HeldCount(wk, wk.back.value) > 0;
  }

  lemma LoopingKept(s: State, s': State, wk: Worker)
    requires WorkerOk(s, wk) && (s.exiting ==> s'.exiting) && s'.listener == s.listener
    requires !Accepting(wk) && !Receiving(wk) && !wk.Disc?
    requires forall c :: HeldCount(wk, c) > 0 ==> Same(s, s', c)
    ensures WorkerOk(s', wk)
  {
    if wk.Dequeued? || wk.Dispatching? {
      assert wk.p.Completion? ==> HeldCount(wk, wk.p.ov) > 0;
    }
  }

  lemma WorkerKept(s: State, s': State, wk: Worker)
    requires WorkerOk(s, wk) && (s.exiting ==> s'.exiting) && s'.listener == s.listener
    requires forall c :: HeldCount(wk, c) > 0 ==> Same(s, s', c)
    ensures WorkerOk(s', wk)
  {
    hide WorkerOk, HeldCount, Same;
    if Accepting(wk) {
      AcceptingKept(s, s', wk);
    } else if Receiving(wk) {
      ReceivingKept(s, s', wk);
    } else if wk.Disc? {
      DisconnectingKept(s, s', wk);
    } else {
      LoopingKept(s, s', wk);
    }
  }
}
