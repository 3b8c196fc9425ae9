/**
 Every open handle is accounted for: it is the socket of a live context, or the accept socket of the listening
 context. The accept socket becomes the socket of a new context before it is replaced by the next one, so none
 is ever lost.
 */
module IocpSockets {
  import opened Prelude
  import opened IocpModel
  import opened IocpInvariant
  import opened IocpOwnership
  import opened IocpWorkerSteps
  import opened IocpTableSteps
  import opened IocpSystemSteps
  import opened IocpProgress

  /** The accept socket of the listening context. */
  function Accepted(s: State): Option<Socket> {
    if s.listener.Some? && s.listener.value in s.ctxs then s.ctxs[s.listener.value].accepted else None
  }

  /** The listening socket. */
  function Listened(s: State): Option<Socket> {
    if s.listener.Some? && s.listener.value in s.ctxs then s.ctxs[s.listener.value].socket else None
  }

  /** The accept socket has become the socket of an accepted context, or is closed already. */
  ghost predicate Spent(s: State) {
    Accepted(s).Some? ==> Accepted(s).value in s.keyOf || Accepted(s).value !in s.open
  }

  /** Between the creation of the accepted context and the next accept socket. */
  predicate PastCreation(wk: Worker) {
    || wk.AccList? || wk.AccMap? || wk.AccDeliver? || wk.AccRecv? || wk.AccSocket?
    || (wk.Disc? && wk.back.Some?)
  }

  ghost predicate Accounted(s: State) {
    && (forall sk :: sk in s.open ==> sk in s.keyOf || Accepted(s) == Some(sk))
    && (forall w :: 0 <= w < |s.workers| && PastCreation(s.workers[w]) ==> Spent(s))
    && (s.main == Arming ==> Accepted(s) == None)
    && (s.main !in {Boot, Listening, Stopped} ==> Listened(s).Some?)
  }

  /** Handles are closed or associated, and none is opened. */
  ghost predicate OpensNothing(s: State, s': State) {
    && Accepted(s') == Accepted(s) && s'.open <= s.open
    && forall sk :: sk in s'.open && sk in s.keyOf ==> sk in s'.keyOf
  }

  /** start_accept: a fresh accept socket, or none. */
  ghost predicate Replaces(s: State, s': State) {
    && s'.keyOf == s.keyOf
    && if Accepted(s').Some? then s'.open == s.open + {Accepted(s').value} else s'.open == s.open
  }

  /** What a step of worker `w` does to the handles. */
  ghost predicate HandleStep(s: State, s': State, w: nat) {
    && w < |s.workers| == |s'.workers| && Listened(s') == Listened(s)
    && if s.workers[w].AccSocket? then Replaces(s, s') && !PastCreation(s'.workers[w])
       else OpensNothing(s, s') && (PastCreation(s'.workers[w]) ==> PastCreation(s.workers[w]) || Spent(s'))
  }

  // ---- Every kind of step

  /** A step that leaves the handles, and what matters of the contexts, alone. */
  ghost predicate HandlesKept(s: State, s': State, w: nat) {
    && w < |s.workers| == |s'.workers|
    && s'.open == s.open && s'.keyOf == s.keyOf
    && Accepted(s') == Accepted(s) && Listened(s') == Listened(s)
    && (PastCreation(s'.workers[w]) ==> PastCreation(s.workers[w]))
  }

  lemma KeptIsStep(s: State, s': State, w: nat)
    requires HandlesKept(s, s', w) && !s.workers[w].AccSocket?
    ensures HandleStep(s, s', w)
  {
  }

  /** The worker moves, and contexts and handles stay. */
  lemma OnlyMoved(s: State, s': State, w: nat, wk: Worker)
    requires w < |s.workers| && (PastCreation(wk) ==> PastCreation(s.workers[w]))
    requires s' == To(s, w, wk)
                   .(queue := s'.queue, dropped := s'.dropped, list := s'.list, conns := s'.conns, objs := s'.objs,
                     peers := s'.peers, locker := s'.locker)
    ensures HandlesKept(s, s', w)
  {
  }

  /** WSARecv, with the tag of the context set. */
  lemma RearmKept(s: State, t: State, s': State, w: nat, wk: Worker)
    requires w < |s.workers| == |t.workers| && (PastCreation(wk) ==> PastCreation(s.workers[w]))
    requires t == s.(ctxs := t.ctxs) && Accepted(t) == Accepted(s) && Listened(t) == Listened(s)
    requires s' == To(t, w, wk).(kernel := s'.kernel)
    ensures HandlesKept(s, s', w)
  {
    assert Accepted(s') == Accepted(t) && Listened(s') == Listened(t);
  }

  lemma DequeueHandles(s: State, s': State, w: nat)
    requires w < |s.workers| && s.workers[w] == Idle && StepDequeue(s, w) == Some(s')
    ensures HandlesKept(s, s', w)
  {
  }

  lemma CheckHandles(s: State, s': State, w: nat, p: Packet)
    requires w < |s.workers| && s.workers[w] == Dequeued(p) && StepCheck(s, w, p) == Some(s')
    ensures HandlesKept(s, s', w)
  {
  }

  lemma AccOptionHandles(s: State, s': State, w: nat, a: CtxId, n: nat, ch: Choice)
    requires w < |s.workers| && s.workers[w] == AccOption(a, n) && StepAccOption(s, w, a, n, ch) == Some(s')
    ensures HandlesKept(s, s', w)
  {
    var wk := if a !in s.ctxs then Crashed else if ch.ok then AccCreate(a, n) else Returned;
    assert s' == To(s, w, wk).(dropped := s'.dropped);
    hide StepAccOption, HandlesKept;
    OnlyMoved(s, s', w, wk);
  }

  lemma AccListHandles(s: State, s': State, w: nat, a: CtxId, n: nat, c: CtxId)
    requires w < |s.workers| && s.workers[w] == AccList(a, n, c) && StepAccList(s, w, a, n, c) == Some(s')
    ensures HandlesKept(s, s', w)
  {
  }

  lemma AccMapHandles(s: State, s': State, w: nat, a: CtxId, n: nat, c: CtxId)
    requires w < |s.workers| && s.workers[w] == AccMap(a, n, c) && StepAccMap(s, w, a, n, c) == Some(s')
    ensures HandlesKept(s, s', w)
  {
    var k := |s.objs|;
    var wk := if c !in s.ctxs then Crashed else if n > 0 then AccDeliver(a, n, c, k) else AccRecv(a, c);
    assert s' == To(s, w, wk).(objs := s'.objs, conns := s'.conns, peers := s'.peers);
    hide StepAccMap, HandlesKept;
    OnlyMoved(s, s', w, wk);
  }

  lemma AccDeliverHandles(s: State, s': State, w: nat, a: CtxId, n: nat, c: CtxId, k: ConnId)
    requires w < |s.workers| && s.workers[w] == AccDeliver(a, n, c, k) && StepAccDeliver(s, w, a, n, c, k) == Some(s')
    ensures HandlesKept(s, s', w)
  {
  }

  lemma AccRecvHandles(s: State, s': State, w: nat, a: CtxId, c: CtxId, ch: Choice)
    requires w < |s.workers| && s.workers[w] == AccRecv(a, c) && StepAccRecv(s, w, a, c, ch) == Some(s')
    ensures HandlesKept(s, s', w)
  {
    if c in s.ctxs {
      var t := SetCtx(s, c, s.ctxs[c].(tag := IOReceive));
      assert Accepted(t) == Accepted(s) && Listened(t) == Listened(s);
      var wk := if ch.ok then AccSocket(a) else Disc(Lock, c, Some(a));
      assert s' == To(t, w, wk).(kernel := s'.kernel);
      hide StepAccRecv, Accepted, Listened;
      RearmKept(s, t, s', w, wk);
    } else {
      assert s' == To(s, w, Crashed);
    }
  }

  lemma AccPostHandles(s: State, s': State, w: nat, a: CtxId, ch: Choice)
    requires w < |s.workers| && s.workers[w] == AccPost(a) && StepAccPost(s, w, a, ch) == Some(s')
    ensures HandlesKept(s, s', w)
  {
  }

  lemma RcvCountHandles(s: State, s': State, w: nat, a: CtxId, ov: CtxId, n: nat)
    requires w < |s.workers| && s.workers[w] == RcvCount(a, ov, n) && StepRcvCount(s, w, a, ov, n) == Some(s')
    ensures HandlesKept(s, s', w)
  {
    var there := a in s.ctxs && s.ctxs[a].socket.Some? && s.ctxs[a].socket.value in s.conns;
    var wk := if a !in s.ctxs then Crashed else if there then RcvFetch(a, ov, n) else RcvPost(a, ov);
    assert s' == To(s, w, wk);
    hide StepRcvCount, HandlesKept;
    OnlyMoved(s, s', w, wk);
  }

  lemma RcvFetchHandles(s: State, s': State, w: nat, a: CtxId, ov: CtxId, n: nat)
    requires w < |s.workers| && s.workers[w] == RcvFetch(a, ov, n) && StepRcvFetch(s, w, a, ov, n) == Some(s')
    ensures HandlesKept(s, s', w)
  {
    var there := a in s.ctxs && s.ctxs[a].socket.Some? && s.ctxs[a].socket.value in s.conns
                 && s.conns[s.ctxs[a].socket.value].Some?;
    var wk := if there then RcvDeliver(a, ov, n, s.conns[s.ctxs[a].socket.value].value) else Crashed;
    assert s' == To(s, w, wk);
    hide StepRcvFetch, HandlesKept;
    OnlyMoved(s, s', w, wk);
  }

  lemma RcvDeliverHandles(s: State, s': State, w: nat, a: CtxId, ov: CtxId, n: nat, k: ConnId)
    requires w < |s.workers| && s.workers[w] == RcvDeliver(a, ov, n, k) && StepRcvDeliver(s, w, a, ov, n, k) == Some(s')
    ensures HandlesKept(s, s', w)
  {
  }

  lemma RcvPostHandles(s: State, s': State, w: nat, a: CtxId, ov: CtxId, ch: Choice)
    requires w < |s.workers| && s.workers[w] == RcvPost(a, ov) && StepRcvPost(s, w, a, ov, ch) == Some(s')
    ensures HandlesKept(s, s', w)
  {
    if ov in s.ctxs {
      var t := SetCtx(s, ov, s.ctxs[ov].(tag := IOReceive));
      assert Accepted(t) == Accepted(s) && Listened(t) == Listened(s);
      var wk := if ch.ok then Idle else Disc(Lock, a, None);
      assert s' == To(t, w, wk).(kernel := s'.kernel);
      hide StepRcvPost, Accepted, Listened;
      RearmKept(s, t, s', w, wk);
    } else {
      assert s' == To(s, w, Crashed);
    }
  }

  /** The accept socket becomes the socket of the new context. */
  lemma CreateHandles(s: State, s': State, w: nat, a: CtxId, n: nat, ch: Choice)
    requires w < |s.workers| && s.workers[w] == AccCreate(a, n) && StepAccCreate(s, w, a, n, ch) == Some(s')
    requires IsListener(s, a)
    ensures HandleStep(s, s', w)
  {
    if ch.ok {
      assert Accepted(s') == Accepted(s);
    } else {
      assert HandlesKept(s, s', w);
    }
  }

  lemma RearmHandles(s: State, s': State, w: nat, a: CtxId, ch: Choice)
    requires w < |s.workers| && s.workers[w] == AccSocket(a) && StepAccSocket(s, w, a, ch) == Some(s')
    requires IsListener(s, a)
    ensures HandleStep(s, s', w)
  {
    if ch.ok {
    } else {
    }
  }

  lemma FreeHandles(s: State, s': State, w: nat, c: CtxId, back: Option<CtxId>)
    requires w < |s.workers| && s.workers[w] == Disc(Free, c, back) && StepDisc(s, w, Free, c, back) == Some(s')
    requires s.listener != Some(c)
    ensures HandlesKept(s, s', w)
  {
    if c in s.ctxs {
      assert s' == To(s, w, Disc(Unlock, c, back)).(ctxs := s.ctxs - {c});
      hide StepDisc;
      assert Accepted(s') == Accepted(s);
    } else {
      hide HandlesKept;
      OnlyMoved(s, s', w, Crashed);
    }
  }

  lemma NotifyHandles(s: State, s': State, w: nat, c: CtxId, back: Option<CtxId>)
    requires w < |s.workers| && s.workers[w] == Disc(Notify, c, back) && StepDiscNotify(s, w, c, back) == Some(s')
    ensures HandlesKept(s, s', w)
  {
    var wk := if c in s.ctxs then Disc(Erase, c, back) else Crashed;
    assert s' == To(s, w, wk).(objs := s'.objs, conns := s'.conns);
    hide StepDiscNotify, HandlesKept;
    OnlyMoved(s, s', w, wk);
  }

  lemma EraseHandles(s: State, s': State, w: nat, c: CtxId, back: Option<CtxId>)
    requires w < |s.workers| && s.workers[w] == Disc(Erase, c, back) && StepDiscErase(s, w, c, back) == Some(s')
    ensures HandlesKept(s, s', w)
  {
    var wk := if c in s.ctxs then Disc(Close, c, back) else Crashed;
    assert s' == To(s, w, wk).(conns := s'.conns);
    hide StepDiscErase, HandlesKept;
    OnlyMoved(s, s', w, wk);
  }

  lemma LockHandles(s: State, s': State, w: nat, stage: Stage, c: CtxId, back: Option<CtxId>)
    requires w < |s.workers| && s.workers[w] == Disc(stage, c, back) && StepDisc(s, w, stage, c, back) == Some(s')
    requires stage == Lock || stage == Remove || stage == Unlock
    ensures HandlesKept(s, s', w)
  {
    hide StepDiscTest, StepDiscNotify, StepDiscErase, StepDiscClose;
  }

  /** disconnect closes nothing but the socket of the context, and frees no listening context. */
  lemma DisconnectHandles(s: State, s': State, w: nat, stage: Stage, c: CtxId, back: Option<CtxId>)
    requires w < |s.workers| && s.workers[w] == Disc(stage, c, back) && StepDisc(s, w, stage, c, back) == Some(s')
    requires WorkerOk(s, s.workers[w]) && ListenerOk(s) && KeysOk(s)
    ensures HandleStep(s, s', w)
  {
    LiveThere(s, stage, c, back);
    if stage == TestSocket {
      DiscTestFalls(s, w, c, back);
    }
    hide StepDiscTest, StepDiscNotify, StepDiscErase, StepDiscClose, StepDiscLock, HandlesKept, HandleStep, WorkerOk,
         ListenerOk, KeysOk;
    match stage
    case Close => CloseHandles(s, s', w, c, back);
    case TestSocket => TestHandles(s, s', w, c, back); KeptIsStep(s, s', w);
    case Notify => NotifyHandles(s, s', w, c, back); KeptIsStep(s, s', w);
    case Erase => EraseHandles(s, s', w, c, back); KeptIsStep(s, s', w);
    case Free => FreeHandles(s, s', w, c, back); KeptIsStep(s, s', w);
    case _ => LockHandles(s, s', w, stage, c, back); KeptIsStep(s, s', w);
  }

  lemma LiveThere(s: State, stage: Stage, c: CtxId, back: Option<CtxId>)
    requires WorkerOk(s, Disc(stage, c, back))
    ensures stage != Unlock ==> c in s.ctxs && s.listener != Some(c)
  {
  }

  lemma CloseHandles(s: State, s': State, w: nat, c: CtxId, back: Option<CtxId>)
    requires w < |s.workers| && s.workers[w] == Disc(Close, c, back) && StepDiscClose(s, w, c, back) == Some(s')
    requires c in s.ctxs && s.listener != Some(c)
    ensures HandleStep(s, s', w)
  {
    assert Accepted(s') == Accepted(s);
  }

  lemma TestHandles(s: State, s': State, w: nat, c: CtxId, back: Option<CtxId>)
    requires w < |s.workers| && s.workers[w] == Disc(TestSocket, c, back)
    requires s' == To(s, w, Disc(Notify, c, back))
    ensures HandlesKept(s, s', w)
  {
  }

  lemma DispatchHandles(s: State, s': State, w: nat, p: Packet)
    requires w < |s.workers| && s.workers[w] == Dispatching(p) && s' == To(s, w, DispatchTo(s, p))
    ensures HandlesKept(s, s', w)
  {
    assert !PastCreation(DispatchTo(s, p));
    hide DispatchTo;
    OnlyMoved(s, s', w, DispatchTo(s, p));
  }

  lemma AcceptingHandles(s: State, s': State, w: nat, ch: Choice)
    requires w < |s.workers| && StepWorker(s, w, ch) == Some(s') && Accepting(s.workers[w])
    requires IsListener(s, s.workers[w].a)
    ensures HandleStep(s, s', w)
  {
    hide StepAccOption, StepAccCreate, StepAccList, StepAccMap, StepAccDeliver, StepAccRecv, StepAccSocket, StepAccPost,
         HandleStep, HandlesKept;
    match s.workers[w]
    case AccOption(a, n) => AccOptionHandles(s, s', w, a, n, ch); KeptIsStep(s, s', w);
    case AccCreate(a, n) => CreateHandles(s, s', w, a, n, ch);
    case AccList(a, n, c) => AccListHandles(s, s', w, a, n, c); KeptIsStep(s, s', w);
    case AccMap(a, n, c) => AccMapHandles(s, s', w, a, n, c); KeptIsStep(s, s', w);
    case AccDeliver(a, n, c, k) => AccDeliverHandles(s, s', w, a, n, c, k); KeptIsStep(s, s', w);
    case AccRecv(a, c) => AccRecvHandles(s, s', w, a, c, ch); KeptIsStep(s, s', w);
    case AccSocket(a) => RearmHandles(s, s', w, a, ch);
    case AccPost(a) => AccPostHandles(s, s', w, a, ch); KeptIsStep(s, s', w);
  }

  lemma OtherHandles(s: State, s': State, w: nat, ch: Choice)
    requires w < |s.workers| && StepWorker(s, w, ch) == Some(s') && !Accepting(s.workers[w]) && !s.workers[w].Disc?
    ensures HandlesKept(s, s', w)
  {
    hide StepDequeue, StepCheck, DispatchTo, StepRcvCount, StepRcvFetch, StepRcvDeliver, StepRcvPost, HandlesKept;
    match s.workers[w]
    case Idle => DequeueHandles(s, s', w);
    case Dequeued(p) => CheckHandles(s, s', w, p);
    case Dispatching(p) => DispatchHandles(s, s', w, p);
    case RcvCount(a, ov, n) => RcvCountHandles(s, s', w, a, ov, n);
    case RcvFetch(a, ov, n) => RcvFetchHandles(s, s', w, a, ov, n);
    case RcvDeliver(a, ov, n, k) => RcvDeliverHandles(s, s', w, a, ov, n, k);
    case RcvPost(a, ov) => RcvPostHandles(s, s', w, a, ov, ch);
  }

  lemma WorkerHandles(s: State, s': State, w: nat, ch: Choice)
    requires w < |s.workers| && StepWorker(s, w, ch) == Some(s') && WorkerOk(s, s.workers[w]) && Tables(s)
    ensures HandleStep(s, s', w)
  {
    hide StepWorker, WorkerOk, HandleStep, HandlesKept, ListenerOk, KeysOk, PeersOk, ConnsOk, ObjsOk, ListOk, LockerOk,
         MainPhaseOk;
    AcceptingIsListener(s, s.workers[w]);
    if Accepting(s.workers[w]) {
      AcceptingHandles(s, s', w, ch);
    } else if s.workers[w].Disc? {
      DiscHandles(s, s', w, ch);
    } else {
      OtherHandles(s, s', w, ch);
      KeptIsStep(s, s', w);
    }
  }

  lemma DiscHandles(s: State, s': State, w: nat, ch: Choice)
    requires w < |s.workers| && StepWorker(s, w, ch) == Some(s') && WorkerOk(s, s.workers[w]) && s.workers[w].Disc?
    requires ListenerOk(s) && KeysOk(s)
    ensures HandleStep(s, s', w)
  {
    hide StepDisc, WorkerOk, HandleStep, ListenerOk, KeysOk;
    DisconnectHandles(s, s', w, s.workers[w].stage, s.workers[w].c, s.workers[w].back);
  }

  // ---- The main thread and the system

  /** A step of the main thread; start_accept of start-up is the only one that replaces the accept socket. */
  ghost predicate MainHandleStep(s: State, s': State) {
    && s'.workers == s.workers && s.main != Stopped
    && (s.main == Arming ==> Replaces(s, s') && s'.main != Arming)
    && (s.main == Listening ==> s'.main == Arming && Accepted(s') == None)
    && (s'.main == Arming ==> s.main == Listening)
    && (s.main == Boot ==> s'.main == Listening)
    && (if s.main == Listening then Listened(s').Some?
        else if s.main == Closing then s'.main == Stopped else Listened(s') == Listened(s))
    && (s.main != Arming ==> forall sk :: sk in s'.open ==> sk in s'.keyOf || (sk in s.open && sk !in s.keyOf))
    && (s.main != Arming && s.main != Listening ==> OpensNothing(s, s'))
  }

  lemma ListeningHandles(s: State, s': State, ch: Choice)
    requires s.main == Listening && StepMain(s, ch) == Some(s')
    ensures MainHandleStep(s, s')
  {
  }

  lemma ArmingHandles(s: State, s': State, ch: Choice)
    requires s.main == Arming && StepMain(s, ch) == Some(s')
    ensures MainHandleStep(s, s')
  {
  }

  lemma ArmPostHandles(s: State, s': State, ch: Choice)
    requires s.main == ArmPost && StepMain(s, ch) == Some(s')
    ensures MainHandleStep(s, s')
  {
    assert s' == s.(kernel := s'.kernel, main := Serving);
    hide StepMain;
  }

  lemma ClosingHandles(s: State, s': State, ch: Choice)
    requires s.main == Closing && StepMain(s, ch) == Some(s')
    ensures MainHandleStep(s, s')
  {
    if s.listener.Some? && s.listener.value in s.ctxs && s.ctxs[s.listener.value].socket.Some? {
      var x := s.ctxs[s.listener.value];
      assert s' == SetCtx(CloseSocket(s, x.socket.value), s.listener.value, x.(socket := None)).(main := Stopped);
      hide StepMain;
      assert Accepted(s') == Accepted(s);
    } else {
      assert s' == s.(main := Stopped);
      hide StepMain;
    }
  }

  /** A step that only moves the main thread on, and maybe posts an exit packet. */
  lemma PhaseHandles(s: State, s': State)
    requires s.main == Boot || s.main == Serving || s.main.Posting?
    requires s' == s.(running := s'.running, exiting := s'.exiting, main := s'.main, queue := s'.queue)
    requires s'.main != Arming && (s.main == Boot ==> s'.main == Listening)
    ensures MainHandleStep(s, s')
  {
  }

  lemma PostingHandles(s: State, s': State, ch: Choice)
    requires s.main.Posting? && StepMain(s, ch) == Some(s')
    ensures MainHandleStep(s, s')
  {
    if s.main.i < |s.workers| {
      var posted := if s.port then [ExitPacket] else [];
      assert s' == s.(main := Posting(s.main.i + 1), queue := s.queue + posted);
      hide StepMain, MainHandleStep;
      PhaseHandles(s, s');
    } else {
      assert s' == s.(main := Closing);
      hide StepMain, MainHandleStep;
      PhaseHandles(s, s');
    }
  }

  lemma FlagHandles(s: State, s': State, ch: Choice)
    requires (s.main == Boot || s.main == Serving) && StepMain(s, ch) == Some(s')
    ensures MainHandleStep(s, s')
  {
    hide MainHandleStep;
    PhaseHandles(s, s');
  }

  lemma MainHandles(s: State, s': State, ch: Choice)
    requires StepMain(s, ch) == Some(s')
    ensures MainHandleStep(s, s')
  {
    hide MainHandleStep;
    match s.main
    case Listening => ListeningHandles(s, s', ch);
    case Arming => ArmingHandles(s, s', ch);
    case ArmPost => ArmPostHandles(s, s', ch);
    case Closing => ClosingHandles(s, s', ch);
    case Posting(_) => PostingHandles(s, s', ch);
    case _ => FlagHandles(s, s', ch);
  }

  lemma SystemHandles(s: State, l: Label)
    requires !l.Work? && !l.MainStep? && Step(s, l).Some?
    ensures OpensNothing(s, Step(s, l).value) && Step(s, l).value.workers == s.workers
    ensures Step(s, l).value.main == s.main && Listened(Step(s, l).value) == Listened(s)
  {
  }

  // ---- Every step keeps the handles accounted for

  lemma OpensNothingKeeps(s: State, s': State)
    requires OpensNothing(s, s')
    ensures Spent(s) ==> Spent(s')
    ensures (forall sk :: sk in s.open ==> sk in s.keyOf || Accepted(s) == Some(sk)) ==>
      forall sk :: sk in s'.open ==> sk in s'.keyOf || Accepted(s') == Some(sk)
  {
  }

  lemma ReplacesKeeps(s: State, s': State)
    requires Replaces(s, s') && Spent(s) && forall sk :: sk in s.open ==> sk in s.keyOf || Accepted(s) == Some(sk)
    ensures forall sk :: sk in s'.open ==> sk in s'.keyOf || Accepted(s') == Some(sk)
  {
  }

  /** While a worker re-arms the accept, nobody else and not the main thread is at work on the listening context. */
  lemma RearmedAlone(s: State, w: nat)
    requires Inv(s) && w < |s.workers| && s.workers[w].AccSocket?
    ensures forall v :: 0 <= v < |s.workers| && v != w ==> !PastCreation(s.workers[v])
    ensures s.main != Arming
  {
    hide Inv, WorkerOk;
    WorkerFact(s, w);
    AcceptingIsListener(s, s.workers[w]);
    var l := s.workers[w].a;
    ListenerExclusive(s, w, l);
    forall v | 0 <= v < |s.workers| && v != w ensures !PastCreation(s.workers[v]) {
      WorkerFact(s, v);
      AcceptingIsListener(s, s.workers[v]);
      PastHoldsListener(s.workers[v], l);
    }
  }

  lemma ListenerExclusive(s: State, w: nat, l: CtxId)
    requires Inv(s) && w < |s.workers| && HeldCount(s.workers[w], l) > 0 && s.listener == Some(l)
    ensures forall v :: 0 <= v < |s.workers| && v != w ==> HeldCount(s.workers[v], l) == 0
    ensures s.main != Arming
  {
    WorkerExclusive(s, w, l);
  }

  lemma PastHoldsListener(wk: Worker, l: CtxId)
    requires Accepting(wk) ==> wk.a == l
    requires wk.Disc? && wk.back.Some? ==> wk.back.value == l
    ensures PastCreation(wk) ==> HeldCount(wk, l) > 0
  {
  }

  lemma WorkerAccounted(s: State, s': State, w: nat, ch: Choice)
    requires Inv(s) && Accounted(s) && w < |s.workers| && StepWorker(s, w, ch) == Some(s')
    ensures Accounted(s')
  {
    hide Inv, StepWorker, WorkerOk, Tables, Spent, OpensNothing, Replaces, Listened;
    WorkerFact(s, w);
    WorkerHandles(s, s', w, ch);
    WorkerAdvances(s, s', w, ch);
    if s.workers[w].AccSocket? {
      RearmedAlone(s, w);
      ReplacesKeeps(s, s');
    } else {
      OpensNothingKeeps(s, s');
      ArmingStays(s, s');
    }
  }

  lemma ArmingStays(s: State, s': State)
    requires OpensNothing(s, s')
    ensures Accepted(s') == Accepted(s)
  {
  }

  /** The main thread works on the listening context alone. */
  lemma MainAlone(s: State)
    requires Inv(s) && (s.main == Arming || s.main == Listening)
    ensures forall v :: 0 <= v < |s.workers| ==> !PastCreation(s.workers[v])
    ensures s.main == Listening ==> Accepted(s) == None
  {
    hide WorkerOk;
    assert MainPhaseOk(s);
    forall v | 0 <= v < |s.workers| ensures !PastCreation(s.workers[v]) {
      WorkerFact(s, v);
      AcceptingIsListener(s, s.workers[v]);
      if s.main == Arming {
        MainExclusive(s, s.listener.value);
        PastHoldsListener(s.workers[v], s.listener.value);
      }
    }
  }

  lemma MainAccounted(s: State, s': State, ch: Choice)
    requires Inv(s) && Accounted(s) && StepMain(s, ch) == Some(s')
    ensures Accounted(s')
  {
    hide Inv, StepMain, Spent, OpensNothing, Replaces, Accepted, Listened;
    MainHandles(s, s', ch);
    if s.main == Arming {
      MainAlone(s);
      NothingAccepted(s);
      ReplacesKeeps(s, s');
    } else if s.main == Listening {
      MainAlone(s);
    } else {
      OpensNothingKeeps(s, s');
    }
  }

  lemma NothingAccepted(s: State)
    requires Accepted(s) == None
    ensures Spent(s)
  {
  }

  lemma SystemAccounted(s: State, l: Label)
    requires !l.Work? && !l.MainStep? && Step(s, l).Some? && Accounted(s)
    ensures Accounted(Step(s, l).value)
  {
    hide Step, Spent, OpensNothing, Accepted, Listened;
    SystemHandles(s, l);
    OpensNothingKeeps(s, Step(s, l).value);
    ArmingStays(s, Step(s, l).value);
  }

  lemma InitialAccounted(n: nat)
    ensures Accounted(Initial(n))
  {
  }

  lemma {:induction false} ExecutionAccounted(n: nat, h: History, k: nat)
    requires Execution(n, h) && k <= |h.labels|
    ensures Accounted(h.states[k])
  {
    hide Inv, Accounted, StepWorker, StepMain, StepKernelAccept, StepKernelAcceptFail, StepKernelRecv,
         StepKernelRecvEnd, StepPeerSend, Initial;
    if k == 0 {
      InitialAccounted(n);
    } else {
      assert StepAt(h, k - 1);
      ExecutionKeepsInv(n, h, k - 1);
      ExecutionAccounted(n, h, k - 1);
      var s, s' := h.states[k - 1], h.states[k];
      match h.labels[k - 1]
      case Work(w, ch) => WorkerAccounted(s, s', w, ch);
      case MainStep(ch) => MainAccounted(s, s', ch);
      case l => SystemAccounted(s, l);
    }
  }

  /** From its creation until Stop closes it, the listening context has its socket. */
  lemma StillListening(n: nat, s: State)
    requires Reachable(n, s) && s.main !in {Boot, Listening, Stopped}
    ensures s.listener.Some? && s.listener.value in s.ctxs && s.ctxs[s.listener.value].socket.Some?
  {
    hide Step, Inv;
    var h: History, k: nat :| Execution(n, h) && k <= |h.labels| && h.states[k] == s;
    ExecutionAccounted(n, h, k);
  }

  /** In every reachable state an open handle is the socket of a live context, or the accept socket. */
  lemma OpenSockets(n: nat, s: State)
    requires Reachable(n, s)
    ensures forall sk :: sk in s.open ==>
      || (sk in s.keyOf && s.keyOf[sk] in s.ctxs && s.ctxs[s.keyOf[sk]].socket == Some(sk))
      || (s.listener.Some? && s.listener.value in s.ctxs && s.ctxs[s.listener.value].accepted == Some(sk))
  {
    hide Step, Inv, Accounted, Tables;
    var h: History, k: nat :| Execution(n, h) && k <= |h.labels| && h.states[k] == s;
    ExecutionKeepsInv(n, h, k);
    ExecutionAccounted(n, h, k);
    OpenIn(s);
  }

  lemma OpenIn(s: State)
    requires Inv(s) && Accounted(s)
    ensures forall sk :: sk in s.open ==>
      || (sk in s.keyOf && s.keyOf[sk] in s.ctxs && s.ctxs[s.keyOf[sk]].socket == Some(sk))
      || (s.listener.Some? && s.listener.value in s.ctxs && s.ctxs[s.listener.value].accepted == Some(sk))
  {
    assert KeysOk(s);
  }
}
