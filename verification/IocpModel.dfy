/**
 The completion-port engine of the server: N worker threads that take completion packets from one queue,
 the main thread that starts and stops them, and the operating system that completes the operations they
 post. The state is shared; a label says which thread or which part of the system moves next, and every
 access of a handler to shared state is a step of its own.
 */
module IocpModel {
  import opened Prelude

  type Socket = nat     // handle values; the system reuses a handle once it is closed
  type CtxId = nat      // addresses of socket contexts; the heap reuses an address once it is freed
  type ConnId = nat     // TcpConnection objects, which are never freed
  type PeerId = nat     // remote ends of accepted connections
  type Bytes = seq<bv8>

  const MAX_BUFF: nat := 4 * 1024
  const SOCKADDR_STORAGE: nat := 128
  const ACCEPT_DATA: nat := MAX_BUFF - 2 * (SOCKADDR_STORAGE + 16)

  datatype OpTag = IOAccept | IOConnect | IOReceive | IOSend

  /** A socket_context together with its io_context; None is INVALID_SOCKET. */
  datatype Ctx = Ctx(
    socket: Option<Socket>,
    tag: OpTag,                  // LastOperation
    accepted: Option<Socket>,    // SocketAccept
    buffer: Bytes,
    totalBytes: nat,
    sentBytes: nat
  )

  /** What create_socket_context makes. */
  function NewCtx(sk: Socket, tag: OpTag): Ctx {
    Ctx(Some(sk), tag, None, seq(MAX_BUFF, _ => 0), 0, 0)
  }

  /** A TcpConnection, with the history of what its callbacks were given. */
  datatype Conn = Conn(socket: Socket, peer: PeerId, delivered: Bytes, closed: nat)

  /** A remote end: all it has sent, how much of it the system has copied into buffers, and its connection object. */
  datatype Peer = Peer(stream: Bytes, taken: nat, conn: Option<ConnId>)

  datatype IoOp = AcceptOp(sock: Socket) | RecvOp(sock: Socket, len: nat)

  /** An overlapped operation the system has accepted; `ov` owns the OVERLAPPED, `key` is the completion key. */
  datatype Pending = Pending(key: CtxId, ov: CtxId, op: IoOp)

  /** What GetQueuedCompletionStatus returns; the exit packet has a null overlapped pointer. */
  datatype Packet = ExitPacket | Completion(key: CtxId, ov: CtxId, ok: bool, size: nat)

  /** The stages of disconnect. */
  datatype Stage = Lock | TestSocket | Notify | Erase | Close | Remove | Free | Unlock

  /** A worker thread: the statement it is about to execute, and the locals it will still use. */
  datatype Worker =
    | Idle                                            // in GetQueuedCompletionStatus
    | Dequeued(p: Packet)                             // about to read exiting_ and isrunning_
    | Dispatching(p: Packet)                          // about to read LastOperation
    | AccOption(a: CtxId, n: nat)                     // handle_accept: setsockopt
    | AccCreate(a: CtxId, n: nat)                     // updateCompletionPort
    | AccList(a: CtxId, n: nat, c: CtxId)             // push_front
    | AccMap(a: CtxId, n: nat, c: CtxId)              // handle_new_connection: connections_[...] = a_conn
    | AccDeliver(a: CtxId, n: nat, c: CtxId, k: ConnId)
    | AccRecv(a: CtxId, c: CtxId)                     // first WSARecv
    | AccSocket(a: CtxId)                             // start_accept: new accept socket
    | AccPost(a: CtxId)                               // start_accept: AcceptEx
    | RcvCount(a: CtxId, ov: CtxId, n: nat)           // handle_receive: connections_.count
    | RcvFetch(a: CtxId, ov: CtxId, n: nat)           // handle_receive: connections_[...]
    | RcvDeliver(a: CtxId, ov: CtxId, n: nat, k: ConnId)
    | RcvPost(a: CtxId, ov: CtxId)                    // start_receive: WSARecv
    | Disc(stage: Stage, c: CtxId, back: Option<CtxId>)  // `back`: called inside handle_accept
    | Returned
    | Crashed                                         // dereferenced a null or freed pointer
    | Unmodelled(tag: OpTag)                          // took the IOConnect or IOSend case

  /** The main thread, through Start and Stop. */
  datatype Main = Boot | Listening | Arming | ArmPost | Serving | Posting(i: nat) | Closing | Stopped

  datatype State = State(
    // IocpHandler
    running: bool,
    exiting: bool,
    port: bool,                          // iocp_handle_ is not null
    locker: Option<nat>,
    listener: Option<CtxId>,             // the_socket_context_
    list: seq<CtxId>,                    // socket_contexts_
    conns: map<Socket, Option<ConnId>>,  // connections_; a None entry is a null pointer
    // heap
    ctxs: map<CtxId, Ctx>,
    objs: seq<Conn>,
    // threads
    main: Main,
    workers: seq<Worker>,
    // system
    open: set<Socket>,
    keyOf: map<Socket, CtxId>,           // association of handles with completion keys
    peerOf: map<Socket, PeerId>,         // connected handles
    peers: seq<Peer>,
    kernel: seq<Pending>,
    queue: seq<Packet>,
    dropped: seq<CtxId>                  // history: contexts whose packet was thrown away or never re-posted
  )

  /** What the system decides in a step: success, a new handle, a new address. */
  datatype Choice = Choice(ok: bool, sock: Socket, addr: CtxId)

  /** A step in which nothing fails and the system hands out nothing. */
  const FINE := Choice(true, 0, 0)

  datatype Label =
    | Work(w: nat, ch: Choice)
    | MainStep(ch: Choice)
    | KernelAccept(i: nat, stream: Bytes, n: nat)
    | KernelAcceptFail(i: nat)
    | KernelRecv(i: nat, n: nat)
    | KernelRecvEnd(i: nat, ok: bool)
    | PeerSend(p: PeerId, data: Bytes)

  function Initial(workers: nat): State {
    State(false, false, true, None, None, [], map[], map[], [], Boot, seq(workers, _ => Idle),
          {}, map[], map[], [], [], [], [])
  }

  // ---- Pieces shared by several steps

  function To(s: State, w: nat, wk: Worker): State
    requires w < |s.workers|
  {
    s.(workers := s.workers[w := wk])
  }

  function SetCtx(s: State, c: CtxId, x: Ctx): State {
    s.(ctxs := s.ctxs[c := x])
  }

  /** closesocket: the handle value becomes free, with everything the system knows about it. */
  function CloseSocket(s: State, sk: Socket): State {
    s.(open := s.open - {sk}, keyOf := s.keyOf - {sk}, peerOf := s.peerOf - {sk})
  }

  function Overwrite(buffer: Bytes, data: Bytes): Bytes
    requires |data| <= |buffer|
  {
    data + buffer[|data|..]
  }

  function Tokens(p: Packet): seq<CtxId> {
    if p.Completion? then [p.ov] else []
  }

  /** start_accept, first half: the new accept socket goes into the listening context. */
  function NewAcceptSocket(s: State, sk: Socket): Option<State> {
    if s.listener.Some? && s.listener.value in s.ctxs && sk !in s.open then
      var x := s.ctxs[s.listener.value];
      Some(SetCtx(s, s.listener.value, x.(accepted := Some(sk))).(open := s.open + {sk}))
    else None
  }

  /** start_accept, second half: AcceptEx on the listening socket. */
  function PostAccept(s: State): Option<State> {
    if s.listener.Some? && s.listener.value in s.ctxs then
      var l := s.listener.value;
      var x := s.ctxs[l];
      if x.socket.Some? && x.socket.value in s.keyOf && x.accepted.Some? then
        Some(s.(kernel := s.kernel + [Pending(s.keyOf[x.socket.value], l, AcceptOp(x.accepted.value))]))
      else None
    else None
  }

  /** WSARecv on the socket of context `a` with the OVERLAPPED and the buffer of context `ov`. */
  function PostRecv(s: State, a: CtxId, ov: CtxId): Option<State> {
    if a in s.ctxs && s.ctxs[a].socket.Some? && s.ctxs[a].socket.value in s.keyOf then
      var sk := s.ctxs[a].socket.value;
      Some(s.(kernel := s.kernel + [Pending(s.keyOf[sk], ov, RecvOp(sk, MAX_BUFF))]))
    else None
  }

  // ---- WorkerThread

  function StepDequeue(s: State, w: nat): Option<State>
    requires w < |s.workers|
  {
    if s.queue == [] then None
    else Some(To(s, w, Dequeued(s.queue[0])).(queue := s.queue[1..]))
  }

  function StepCheck(s: State, w: nat, p: Packet): Option<State>
    requires w < |s.workers|
  {
    if s.exiting || !s.running then Some(To(s, w, Returned).(dropped := s.dropped + Tokens(p)))
    else Some(To(s, w, Dispatching(p)))
  }

  /** The check for a client that went away, and the switch on LastOperation. */
  function DispatchTo(s: State, p: Packet): Worker {
    if p.ExitPacket? || p.ov !in s.ctxs then Crashed
    else
      var tag := s.ctxs[p.ov].tag;
      if tag != IOAccept && (!p.ok || p.size == 0) then Disc(Lock, p.key, None)
      else if tag == IOAccept then AccOption(p.key, p.size)
      else if tag == IOReceive then RcvCount(p.key, p.ov, p.size)
      else Unmodelled(tag)
  }

  // ---- handle_accept, handle_new_connection, start_accept

  /** setsockopt(SO_UPDATE_ACCEPT_CONTEXT) succeeds only on a connected socket. */
  function StepAccOption(s: State, w: nat, a: CtxId, n: nat, ch: Choice): Option<State>
    requires w < |s.workers|
  {
    if a !in s.ctxs then Some(To(s, w, Crashed))
    else if !ch.ok then Some(To(s, w, Returned).(dropped := s.dropped + [a]))
    else if s.ctxs[a].accepted.Some? && s.ctxs[a].accepted.value in s.peerOf then Some(To(s, w, AccCreate(a, n)))
    else None
  }

  /** A failed CreateIoCompletionPort leaves null in iocp_handle_. */
  function StepAccCreate(s: State, w: nat, a: CtxId, n: nat, ch: Choice): Option<State>
    requires w < |s.workers|
  {
    if a !in s.ctxs then Some(To(s, w, Crashed))
    else if s.locker.Some? then None
    else if !ch.ok then Some(To(s, w, Returned).(dropped := s.dropped + [a], port := false))
    else if s.port && s.ctxs[a].accepted.Some? && ch.addr !in s.ctxs then
      var sk := s.ctxs[a].accepted.value;
      Some(To(SetCtx(s, ch.addr, NewCtx(sk, IOConnect)), w, AccList(a, n, ch.addr)).(keyOf := s.keyOf[sk := ch.addr]))
    else None
  }

  function StepAccList(s: State, w: nat, a: CtxId, n: nat, c: CtxId): Option<State>
    requires w < |s.workers|
  {
    Some(To(s, w, AccMap(a, n, c)).(list := [c] + s.list))
  }

  function StepAccMap(s: State, w: nat, a: CtxId, n: nat, c: CtxId): Option<State>
    requires w < |s.workers|
  {
    if c !in s.ctxs then Some(To(s, w, Crashed))
    else if s.ctxs[c].socket.Some? && s.ctxs[c].socket.value in s.peerOf
         && s.peerOf[s.ctxs[c].socket.value] < |s.peers| then
      var sk := s.ctxs[c].socket.value;
      var p := s.peerOf[sk];
      var k := |s.objs|;
      Some(To(s, w, if n > 0 then AccDeliver(a, n, c, k) else AccRecv(a, c))
           .(objs := s.objs + [Conn(sk, p, [], 0)],
             peers := s.peers[p := s.peers[p].(conn := Some(k))],
             conns := s.conns[sk := Some(k)]))
    else None
  }

  /** onDataReceived with `n` bytes of the buffer of context `a`. */
  function Deliver(s: State, a: CtxId, n: nat, k: ConnId): Option<State> {
    if a in s.ctxs && n <= |s.ctxs[a].buffer| && k < |s.objs| then
      Some(s.(objs := s.objs[k := s.objs[k].(delivered := s.objs[k].delivered + s.ctxs[a].buffer[..n])]))
    else None
  }

  function StepAccDeliver(s: State, w: nat, a: CtxId, n: nat, c: CtxId, k: ConnId): Option<State>
    requires w < |s.workers|
  {
    match Deliver(s, a, n, k)
    case None => None
    case Some(t) => Some(To(t, w, AccRecv(a, c)))
  }

  function StepAccRecv(s: State, w: nat, a: CtxId, c: CtxId, ch: Choice): Option<State>
    requires w < |s.workers|
  {
    if c !in s.ctxs then Some(To(s, w, Crashed))
    else
      var t := SetCtx(s, c, s.ctxs[c].(tag := IOReceive));
      if !ch.ok then Some(To(t, w, Disc(Lock, c, Some(a))))
      else
        match PostRecv(t, c, c)
        case None => None
        case Some(u) => Some(To(u, w, AccSocket(a)))
  }

  function StepAccSocket(s: State, w: nat, a: CtxId, ch: Choice): Option<State>
    requires w < |s.workers|
  {
    if s.listener.None? || s.listener.value !in s.ctxs then Some(To(s, w, Crashed))
    else if !ch.ok then
      var x := s.ctxs[s.listener.value];
      Some(To(SetCtx(s, s.listener.value, x.(accepted := None)), w, Returned).(dropped := s.dropped + [a]))
    else
      match NewAcceptSocket(s, ch.sock)
      case None => None
      case Some(t) => Some(To(t, w, AccPost(a)))
  }

  /**
   AcceptEx reports failure by FALSE, but the code compares with SOCKET_ERROR: a failure goes unnoticed
   and the worker goes on as if the operation were pending.
   */
  function StepAccPost(s: State, w: nat, a: CtxId, ch: Choice): Option<State>
    requires w < |s.workers|
  {
    if !ch.ok then Some(To(s, w, Idle).(dropped := s.dropped + [a]))
    else
      match PostAccept(s)
      case None => None
      case Some(t) => Some(To(t, w, Idle))
  }

  // ---- handle_receive, start_receive

  function StepRcvCount(s: State, w: nat, a: CtxId, ov: CtxId, n: nat): Option<State>
    requires w < |s.workers|
  {
    if a !in s.ctxs then Some(To(s, w, Crashed))
    else if s.ctxs[a].socket.Some? && s.ctxs[a].socket.value in s.conns then Some(To(s, w, RcvFetch(a, ov, n)))
    else Some(To(s, w, RcvPost(a, ov)))   // "Socket does not exist": the bytes are skipped
  }

  function StepRcvFetch(s: State, w: nat, a: CtxId, ov: CtxId, n: nat): Option<State>
    requires w < |s.workers|
  {
    if a in s.ctxs && s.ctxs[a].socket.Some? && s.ctxs[a].socket.value in s.conns
       && s.conns[s.ctxs[a].socket.value].Some?
    then Some(To(s, w, RcvDeliver(a, ov, n, s.conns[s.ctxs[a].socket.value].value)))
    else Some(To(s, w, Crashed))
  }

  function StepRcvDeliver(s: State, w: nat, a: CtxId, ov: CtxId, n: nat, k: ConnId): Option<State>
    requires w < |s.workers|
  {
    match Deliver(s, a, n, k)
    case None => None
    case Some(t) => Some(To(t, w, RcvPost(a, ov)))
  }

  function StepRcvPost(s: State, w: nat, a: CtxId, ov: CtxId, ch: Choice): Option<State>
    requires w < |s.workers|
  {
    if ov !in s.ctxs then Some(To(s, w, Crashed))
    else
      var t := SetCtx(s, ov, s.ctxs[ov].(tag := IOReceive));
      if !ch.ok then Some(To(t, w, Disc(Lock, a, None)))
      else
        match PostRecv(t, a, ov)
        case None => None
        case Some(u) => Some(To(u, w, Idle))
  }

  // ---- disconnect

  function Without(list: seq<CtxId>, c: CtxId): seq<CtxId> {
    if list == [] then []
    else if list[0] == c then Without(list[1..], c)
    else [list[0]] + Without(list[1..], c)
  }

  function StepDiscLock(s: State, w: nat, c: CtxId, back: Option<CtxId>): Option<State>
    requires w < |s.workers|
  {
    if s.locker.Some? then None else Some(To(s, w, Disc(TestSocket, c, back)).(locker := Some(w)))
  }

  function StepDiscTest(s: State, w: nat, c: CtxId, back: Option<CtxId>): Option<State>
    requires w < |s.workers|
  {
    if c !in s.ctxs || s.listener.None? || s.listener.value !in s.ctxs then Some(To(s, w, Crashed))
    else if s.ctxs[c].socket == s.ctxs[s.listener.value].socket then
      Some(To(s, w, Disc(Unlock, c, back)).(dropped := s.dropped + [c]))   // "Trying to close the listening socket"
    else
      var x := s.ctxs[c];
      var t := if x.accepted.Some? then SetCtx(CloseSocket(s, x.accepted.value), c, x.(accepted := None)) else s;
      Some(To(t, w, Disc(Notify, c, back)))
  }

  /** onDisconnected(connections_[socket]): operator[] inserts a null entry for a missing key. */
  function StepDiscNotify(s: State, w: nat, c: CtxId, back: Option<CtxId>): Option<State>
    requires w < |s.workers|
  {
    if c !in s.ctxs then Some(To(s, w, Crashed))
    else if s.ctxs[c].socket.None? then None
    else
      var sk := s.ctxs[c].socket.value;
      if sk in s.conns && s.conns[sk].Some? && s.conns[sk].value < |s.objs| then
        var k := s.conns[sk].value;
        Some(To(s, w, Disc(Erase, c, back)).(objs := s.objs[k := s.objs[k].(closed := s.objs[k].closed + 1)]))
      else Some(To(s, w, Disc(Erase, c, back)).(conns := s.conns[sk := None]))
  }

  function StepDiscErase(s: State, w: nat, c: CtxId, back: Option<CtxId>): Option<State>
    requires w < |s.workers|
  {
    if c !in s.ctxs then Some(To(s, w, Crashed))
    else if s.ctxs[c].socket.None? then None
    else Some(To(s, w, Disc(Close, c, back)).(conns := s.conns - {s.ctxs[c].socket.value}))
  }

  function StepDiscClose(s: State, w: nat, c: CtxId, back: Option<CtxId>): Option<State>
    requires w < |s.workers|
  {
    if c !in s.ctxs then Some(To(s, w, Crashed))
    else if s.ctxs[c].socket.None? then None
    else
      var x := s.ctxs[c];
      Some(To(SetCtx(CloseSocket(s, x.socket.value), c, x.(socket := None)), w, Disc(Remove, c, back)))
  }

  function StepDisc(s: State, w: nat, stage: Stage, c: CtxId, back: Option<CtxId>): Option<State>
    requires w < |s.workers|
  {
    match stage
    case Lock => StepDiscLock(s, w, c, back)
    case TestSocket => StepDiscTest(s, w, c, back)
    case Notify => StepDiscNotify(s, w, c, back)
    case Erase => StepDiscErase(s, w, c, back)
    case Close => StepDiscClose(s, w, c, back)
    case Remove => Some(To(s, w, Disc(Free, c, back)).(list := Without(s.list, c)))
    case Free =>
      if c !in s.ctxs then Some(To(s, w, Crashed))
      else Some(To(s, w, Disc(Unlock, c, back)).(ctxs := s.ctxs - {c}))
    case Unlock =>
      Some(To(s, w, if back.Some? then AccSocket(back.value) else Idle).(locker := None))
  }

  function StepWorker(s: State, w: nat, ch: Choice): Option<State>
    requires w < |s.workers|
  {
    match s.workers[w]
    case Idle => StepDequeue(s, w)
    case Dequeued(p) => StepCheck(s, w, p)
    case Dispatching(p) => Some(To(s, w, DispatchTo(s, p)))
    case AccOption(a, n) => StepAccOption(s, w, a, n, ch)
    case AccCreate(a, n) => StepAccCreate(s, w, a, n, ch)
    case AccList(a, n, c) => StepAccList(s, w, a, n, c)
    case AccMap(a, n, c) => StepAccMap(s, w, a, n, c)
    case AccDeliver(a, n, c, k) => StepAccDeliver(s, w, a, n, c, k)
    case AccRecv(a, c) => StepAccRecv(s, w, a, c, ch)
    case AccSocket(a) => StepAccSocket(s, w, a, ch)
    case AccPost(a) => StepAccPost(s, w, a, ch)
    case RcvCount(a, ov, n) => StepRcvCount(s, w, a, ov, n)
    case RcvFetch(a, ov, n) => StepRcvFetch(s, w, a, ov, n)
    case RcvDeliver(a, ov, n, k) => StepRcvDeliver(s, w, a, ov, n, k)
    case RcvPost(a, ov) => StepRcvPost(s, w, a, ov, ch)
    case Disc(stage, c, back) => StepDisc(s, w, stage, c, back)
    case _ => None
  }

  // ---- The main thread: TcpServer::Start, TcpServer::Stop, IocpHandler::exiting

  function StepMain(s: State, ch: Choice): Option<State> {
    match s.main
    case Boot => Some(s.(running := true, main := Listening))
    case Listening =>
      if ch.sock !in s.open && ch.addr !in s.ctxs && s.locker.None? then
        Some(SetCtx(s, ch.addr, NewCtx(ch.sock, IOAccept))
             .(open := s.open + {ch.sock}, keyOf := s.keyOf[ch.sock := ch.addr],
               listener := Some(ch.addr), main := Arming))
      else None
    case Arming =>
      (match NewAcceptSocket(s, ch.sock)
       case None => None
       case Some(t) => Some(t.(main := ArmPost)))
    case ArmPost =>
      (match PostAccept(s)
       case None => None
       case Some(t) => Some(t.(main := Serving)))
    case Serving => Some(s.(exiting := true, main := Posting(0)))
    case Posting(i) =>
      if i < |s.workers| then
        // no packet is posted through a null port
        Some(s.(main := Posting(i + 1), queue := s.queue + if s.port then [ExitPacket] else []))
      else Some(s.(main := Closing))       // the wait for the workers ended or ran out of its 1000 ms
    case Closing =>
      if s.listener.Some? && s.listener.value in s.ctxs && s.ctxs[s.listener.value].socket.Some? then
        var x := s.ctxs[s.listener.value];
        Some(SetCtx(CloseSocket(s, x.socket.value), s.listener.value, x.(socket := None)).(main := Stopped))
      else Some(s.(main := Stopped))
    case Stopped => None
  }

  // ---- The system

  function StepKernelAccept(s: State, i: nat, stream: Bytes, n: nat): Option<State> {
    if i < |s.kernel| && s.kernel[i].op.AcceptOp? && n <= ACCEPT_DATA && n <= |stream| then
      var p := s.kernel[i];
      var h := p.op.sock;
      if h in s.open && h !in s.peerOf && p.ov in s.ctxs && |s.ctxs[p.ov].buffer| == MAX_BUFF then
        Some(SetCtx(s, p.ov, s.ctxs[p.ov].(buffer := Overwrite(s.ctxs[p.ov].buffer, stream[..n])))
             .(peers := s.peers + [Peer(stream, n, None)],
               peerOf := s.peerOf[h := |s.peers|],
               kernel := RemoveAt(s.kernel, i),
               queue := s.queue + [Completion(p.key, p.ov, true, n)]))
      else None
    else None
  }

  function StepKernelAcceptFail(s: State, i: nat): Option<State> {
    if i < |s.kernel| && s.kernel[i].op.AcceptOp? then
      var p := s.kernel[i];
      Some(s.(kernel := RemoveAt(s.kernel, i), queue := s.queue + [Completion(p.key, p.ov, false, 0)]))
    else None
  }

  /** A receive completes with the next bytes of the peer's stream, at least one and no more than were asked for. */
  function StepKernelRecv(s: State, i: nat, n: nat): Option<State> {
    if i < |s.kernel| && s.kernel[i].op.RecvOp? && 1 <= n <= s.kernel[i].op.len
       && s.kernel[i].op.sock in s.peerOf && s.peerOf[s.kernel[i].op.sock] < |s.peers|
    then
      var p := s.kernel[i];
      var q := s.peerOf[p.op.sock];
      var peer := s.peers[q];
      if peer.taken + n <= |peer.stream| && p.ov in s.ctxs && n <= |s.ctxs[p.ov].buffer| then
        Some(SetCtx(s, p.ov, s.ctxs[p.ov].(buffer :=
                 Overwrite(s.ctxs[p.ov].buffer, peer.stream[peer.taken..peer.taken + n])))
             .(peers := s.peers[q := peer.(taken := peer.taken + n)],
               kernel := RemoveAt(s.kernel, i),
               queue := s.queue + [Completion(p.key, p.ov, true, n)]))
      else None
    else None
  }

  /** The peer closed (ok) or the operation failed (not ok): no bytes. */
  function StepKernelRecvEnd(s: State, i: nat, ok: bool): Option<State> {
    if i < |s.kernel| && s.kernel[i].op.RecvOp? then
      var p := s.kernel[i];
      Some(s.(kernel := RemoveAt(s.kernel, i), queue := s.queue + [Completion(p.key, p.ov, ok, 0)]))
    else None
  }

  function StepPeerSend(s: State, p: PeerId, data: Bytes): Option<State> {
    if p < |s.peers| then Some(s.(peers := s.peers[p := s.peers[p].(stream := s.peers[p].stream + data)])) else None
  }

  function Step(s: State, l: Label): Option<State> {
    match l
    case Work(w, ch) => if w < |s.workers| then StepWorker(s, w, ch) else None
    case MainStep(ch) => StepMain(s, ch)
    case KernelAccept(i, stream, n) => StepKernelAccept(s, i, stream, n)
    case KernelAcceptFail(i) => StepKernelAcceptFail(s, i)
    case KernelRecv(i, n) => StepKernelRecv(s, i, n)
    case KernelRecvEnd(i, ok) => StepKernelRecvEnd(s, i, ok)
    case PeerSend(p, data) => StepPeerSend(s, p, data)
  }

  ghost predicate Next(s: State, l: Label, s': State) {
    Step(s, l) == Some(s')
  }

  /** The states that an execution goes through, and the labels of the steps between them. */
  datatype History = History(states: seq<State>, labels: seq<Label>)

  ghost predicate Execution(n: nat, h: History) {
    && |h.states| == |h.labels| + 1
    && h.states[0] == Initial(n)
    && forall k :: 0 <= k < |h.labels| ==> StepAt(h, k)
  }

  /** Step `k` leads from its state to the next. */
  ghost predicate StepAt(h: History, k: nat)
    requires k < |h.labels| < |h.states|
  {
    Next(h.states[k], h.labels[k], h.states[k + 1])
  }

  function Last(h: History): State
    requires |h.states| == |h.labels| + 1
  {
    h.states[|h.labels|]
  }

  /** Some execution with `n` workers goes through state `s`. */
  ghost predicate Reachable(n: nat, s: State) {
    exists h: History, k: nat :: Execution(n, h) && k <= |h.labels| && h.states[k] == s
  }

  function Extended(h: History, l: Label, s: State): History {
    History(h.states + [s], h.labels + [l])
  }

  lemma ExtendExecution(n: nat, h: History, l: Label, s: State)
    requires Execution(n, h) && Next(Last(h), l, s)
    ensures Execution(n, Extended(h, l, s)) && Last(Extended(h, l, s)) == s
  {
    var h' := Extended(h, l, s);
    forall k | 0 <= k < |h'.labels| ensures StepAt(h', k) {
      if k < |h.labels| {
        assert StepAt(h, k);
      }
    }
  }
}
