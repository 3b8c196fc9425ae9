/** What every step of a worker does to the rest of the state, and how far it brings the worker. */
module IocpProgress {
  import opened Prelude
  import opened IocpModel
  import opened IocpInvariant

  /** Steps a worker takes at most before it waits for the next packet, plus those for one more packet while exiting. */
  function Remaining(wk: Worker): nat {
    match wk
    case Idle => 2
    case Dequeued(_) => 1
    case Dispatching(_) => 19
    case AccOption(_, _) => 18
    case AccCreate(_, _) => 17
    case AccList(_, _, _) => 16
    case AccMap(_, _, _) => 15
    case AccDeliver(_, _, _, _) => 14
    case AccRecv(_, _) => 13
    case Disc(stage, _, _) => StageRemaining(stage)
    case AccSocket(_) => 4
    case AccPost(_) => 3
    case RcvCount(_, _, _) => 16
    case RcvFetch(_, _, _) => 15
    case RcvDeliver(_, _, _, _) => 14
    case RcvPost(_, _) => 13
    case _ => 0
  }

  function StageRemaining(stage: Stage): (r: nat)
    ensures 5 <= r <= 12
  {
    match stage
    case Lock => 12
    case TestSocket => 11
    case Notify => 10
    case Erase => 9
    case Close => 8
    case Remove => 7
    case Free => 6
    case Unlock => 5
  }

  /**
   One of the calls that accept the next connection fails: setsockopt, CreateIoCompletionPort, WSASocket or
   AcceptEx.
   */
  predicate AcceptFails(wk: Worker, ch: Choice) {
    !ch.ok && (wk.AccOption? || wk.AccCreate? || wk.AccSocket? || wk.AccPost?)
  }

  /** Stands at EnterCriticalSection. */
  predicate NeedsSection(wk: Worker) {
    wk.AccCreate? || (wk.Disc? && wk.stage == Lock)
  }

  /** Has taken its last packet, or returned. */
  predicate Gone(wk: Worker) {
    wk.Dequeued? || wk == Returned
  }

  /** Only creating a connection object and calling back touch the connection objects. */
  predicate TouchesObjects(wk: Worker) {
    wk.AccMap? || wk.AccDeliver? || wk.RcvDeliver? || (wk.Disc? && wk.stage == Notify)
  }

  /** Worker `w` moved: nobody else did, the phases stay, and what it took and gave up is accounted for. */
  ghost predicate Advances(s: State, s': State, w: nat, ch: Choice) {
    && w < |s.workers| && |s'.workers| == |s.workers|
    && s'.workers == s.workers[w := s'.workers[w]]
    && s'.main == s.main && s'.listener == s.listener && s'.exiting == s.exiting && s'.running == s.running
    && (if s.workers[w] == Idle then
          s.queue != [] && s'.queue == s.queue[1..] && s'.workers[w] == Dequeued(s.queue[0])
        else s'.queue == s.queue)
    && (if s.workers[w].Dequeued? then
          s'.workers[w] == if s.exiting || !s.running then Returned else Dispatching(s.workers[w].p)
        else Remaining(s'.workers[w]) < Remaining(s.workers[w]))
    && (Gone(s'.workers[w]) ==> s.workers[w] == Idle || s.workers[w].Dequeued? || AcceptFails(s.workers[w], ch))
    && (s'.port == s.port || (s.workers[w].AccCreate? && !ch.ok && !s'.port))
    && (if AcceptFails(s.workers[w], ch) then
          s'.workers[w].Crashed? || s'.dropped == s.dropped + [s.workers[w].a]
        else
          s'.dropped == s.dropped || (s.workers[w].Dequeued? && (s.exiting || !s.running))
          || (s.workers[w].Disc? && s.workers[w].stage == TestSocket))
    && (!TouchesObjects(s.workers[w]) ==> s'.objs == s.objs)
  }

  /** A step that leaves the queue, the connection objects and the dropped contexts alone. */
  ghost predicate Local(s: State, s': State, w: nat, wk: Worker) {
    && w < |s.workers|
    && s' == To(s, w, wk).(ctxs := s'.ctxs, open := s'.open, keyOf := s'.keyOf, peerOf := s'.peerOf,
                           kernel := s'.kernel, list := s'.list, conns := s'.conns, locker := s'.locker)
  }

  lemma LocalAdvances(s: State, s': State, w: nat, wk: Worker, ch: Choice)
    requires Local(s, s', w, wk) && !s.workers[w].Idle? && !s.workers[w].Dequeued?
    requires Remaining(wk) < Remaining(s.workers[w]) && !Gone(wk)
    requires AcceptFails(s.workers[w], ch) ==> wk.Crashed?
    ensures Advances(s, s', w, ch)
  {
  }

  /** A callback, or a new connection object. */
  lemma CallbackAdvances(s: State, s': State, w: nat, wk: Worker, ch: Choice)
    requires w < |s.workers| && TouchesObjects(s.workers[w])
    requires s' == To(s, w, wk).(objs := s'.objs, conns := s'.conns, peers := s'.peers)
    requires Remaining(wk) < Remaining(s.workers[w]) && !Gone(wk)
    ensures Advances(s, s', w, ch)
  {
  }

  lemma DequeueAdvances(s: State, s': State, w: nat, ch: Choice)
    requires w < |s.workers| && s.workers[w] == Idle && StepDequeue(s, w) == Some(s')
    ensures Advances(s, s', w, ch)
  {
  }

  lemma CheckAdvances(s: State, s': State, w: nat, p: Packet, ch: Choice)
    requires w < |s.workers| && s.workers[w] == Dequeued(p) && StepCheck(s, w, p) == Some(s')
    ensures Advances(s, s', w, ch)
  {
  }

  lemma DispatchAdvances(s: State, s': State, w: nat, p: Packet, ch: Choice)
    requires w < |s.workers| && s.workers[w] == Dispatching(p) && To(s, w, DispatchTo(s, p)) == s'
    ensures Advances(s, s', w, ch)
  {
  }

  lemma AccOptionAdvances(s: State, s': State, w: nat, a: CtxId, n: nat, ch: Choice)
    requires w < |s.workers| && s.workers[w] == AccOption(a, n) && StepAccOption(s, w, a, n, ch) == Some(s')
    ensures Advances(s, s', w, ch)
  {
    if a in s.ctxs {
      if ch.ok {
      } else {
      }
    }
  }

  lemma AccCreateAdvances(s: State, s': State, w: nat, a: CtxId, n: nat, ch: Choice)
    requires w < |s.workers| && s.workers[w] == AccCreate(a, n) && StepAccCreate(s, w, a, n, ch) == Some(s')
    ensures Advances(s, s', w, ch)
  {
    if a in s.ctxs {
      if ch.ok {
      } else {
      }
    }
  }

  lemma AccListAdvances(s: State, s': State, w: nat, a: CtxId, n: nat, c: CtxId, ch: Choice)
    requires w < |s.workers| && s.workers[w] == AccList(a, n, c) && StepAccList(s, w, a, n, c) == Some(s')
    ensures Advances(s, s', w, ch)
  {
  }

  lemma AccMapAdvances(s: State, s': State, w: nat, a: CtxId, n: nat, c: CtxId, ch: Choice)
    requires w < |s.workers| && s.workers[w] == AccMap(a, n, c) && StepAccMap(s, w, a, n, c) == Some(s')
    ensures Advances(s, s', w, ch)
  {
  }

  lemma AccDeliverAdvances(s: State, s': State, w: nat, a: CtxId, n: nat, c: CtxId, k: ConnId, ch: Choice)
    requires w < |s.workers| && s.workers[w] == AccDeliver(a, n, c, k) && StepAccDeliver(s, w, a, n, c, k) == Some(s')
    ensures Advances(s, s', w, ch)
  {
  }

  lemma AccRecvAdvances(s: State, s': State, w: nat, a: CtxId, c: CtxId, ch: Choice)
    requires w < |s.workers| && s.workers[w] == AccRecv(a, c) && StepAccRecv(s, w, a, c, ch) == Some(s')
    ensures Advances(s, s', w, ch)
  {
    var wk := if c !in s.ctxs then Crashed else if ch.ok then AccSocket(a) else Disc(Lock, c, Some(a));
    assert Local(s, s', w, wk);
    hide StepAccRecv, Advances;
    LocalAdvances(s, s', w, wk, ch);
  }

  lemma NoListener(s: State, s': State, w: nat, a: CtxId, ch: Choice)
    requires w < |s.workers| && s.workers[w] == AccSocket(a) && s' == To(s, w, Crashed)
    ensures Advances(s, s', w, ch)
  {
  }

  lemma NoAcceptSocket(s: State, s': State, w: nat, a: CtxId, ch: Choice)
    requires w < |s.workers| && s.workers[w] == AccSocket(a) && !ch.ok
    requires s' == To(s, w, Returned).(ctxs := s'.ctxs, dropped := s.dropped + [a])
    ensures Advances(s, s', w, ch)
  {
  }

  lemma AccSocketAdvances(s: State, s': State, w: nat, a: CtxId, ch: Choice)
    requires w < |s.workers| && s.workers[w] == AccSocket(a) && StepAccSocket(s, w, a, ch) == Some(s')
    ensures Advances(s, s', w, ch)
  {
    if s.listener.Some? && s.listener.value in s.ctxs && ch.ok {
      assert Local(s, s', w, AccPost(a));
      hide StepAccSocket, Advances;
      LocalAdvances(s, s', w, AccPost(a), ch);
    } else if s.listener.Some? && s.listener.value in s.ctxs {
      assert s' == To(s, w, Returned).(ctxs := s'.ctxs, dropped := s.dropped + [a]);
      hide StepAccSocket, Advances;
      NoAcceptSocket(s, s', w, a, ch);
    } else {
      hide Advances;
      NoListener(s, s', w, a, ch);
    }
  }

  lemma AccPostAdvances(s: State, s': State, w: nat, a: CtxId, ch: Choice)
    requires w < |s.workers| && s.workers[w] == AccPost(a) && StepAccPost(s, w, a, ch) == Some(s')
    ensures Advances(s, s', w, ch)
  {
  }

  lemma RcvCountAdvances(s: State, s': State, w: nat, a: CtxId, ov: CtxId, n: nat, ch: Choice)
    requires w < |s.workers| && s.workers[w] == RcvCount(a, ov, n) && StepRcvCount(s, w, a, ov, n) == Some(s')
    ensures Advances(s, s', w, ch)
  {
    var there := a in s.ctxs && s.ctxs[a].socket.Some? && s.ctxs[a].socket.value in s.conns;
    var wk := if a !in s.ctxs then Crashed else if there then RcvFetch(a, ov, n) else RcvPost(a, ov);
    assert Local(s, s', w, wk);
    hide StepRcvCount, Advances;
    LocalAdvances(s, s', w, wk, ch);
  }

  lemma RcvFetchAdvances(s: State, s': State, w: nat, a: CtxId, ov: CtxId, n: nat, ch: Choice)
    requires w < |s.workers| && s.workers[w] == RcvFetch(a, ov, n) && StepRcvFetch(s, w, a, ov, n) == Some(s')
    ensures Advances(s, s', w, ch)
  {
    var there := a in s.ctxs && s.ctxs[a].socket.Some? && s.ctxs[a].socket.value in s.conns
                 && s.conns[s.ctxs[a].socket.value].Some?;
    var wk := if there then RcvDeliver(a, ov, n, s.conns[s.ctxs[a].socket.value].value) else Crashed;
    assert Local(s, s', w, wk);
    hide StepRcvFetch, Advances;
    LocalAdvances(s, s', w, wk, ch);
  }

  lemma RcvDeliverAdvances(s: State, s': State, w: nat, a: CtxId, ov: CtxId, n: nat, k: ConnId, ch: Choice)
    requires w < |s.workers| && s.workers[w] == RcvDeliver(a, ov, n, k) && StepRcvDeliver(s, w, a, ov, n, k) == Some(s')
    ensures Advances(s, s', w, ch)
  {
  }

  lemma RcvPostAdvances(s: State, s': State, w: nat, a: CtxId, ov: CtxId, ch: Choice)
    requires w < |s.workers| && s.workers[w] == RcvPost(a, ov) && StepRcvPost(s, w, a, ov, ch) == Some(s')
    ensures Advances(s, s', w, ch)
  {
    var wk := if ov !in s.ctxs then Crashed else if ch.ok then Idle else Disc(Lock, a, None);
    assert Local(s, s', w, wk);
    hide StepRcvPost, Advances;
    LocalAdvances(s, s', w, wk, ch);
  }

  lemma DiscTestPasses(s: State, s': State, w: nat, c: CtxId, back: Option<CtxId>)
    requires w < |s.workers| && StepDiscTest(s, w, c, back) == Some(s')
    requires c in s.ctxs && s.listener.Some? && s.listener.value in s.ctxs
    requires s.ctxs[c].socket != s.ctxs[s.listener.value].socket
    ensures Local(s, s', w, Disc(Notify, c, back))
  {
  }

  lemma DiscTestAdvances(s: State, s': State, w: nat, c: CtxId, back: Option<CtxId>, ch: Choice)
    requires w < |s.workers| && s.workers[w] == Disc(TestSocket, c, back) && StepDiscTest(s, w, c, back) == Some(s')
    ensures Advances(s, s', w, ch)
  {
    if c !in s.ctxs || s.listener.None? || s.listener.value !in s.ctxs {
      assert Local(s, s', w, Crashed);
      LocalAdvances(s, s', w, Crashed, ch);
    } else if s.ctxs[c].socket == s.ctxs[s.listener.value].socket {
    } else {
      DiscTestPasses(s, s', w, c, back);
      hide StepDiscTest, Advances;
      LocalAdvances(s, s', w, Disc(Notify, c, back), ch);
    }
  }

  lemma DiscNotifyAdvances(s: State, s': State, w: nat, c: CtxId, back: Option<CtxId>, ch: Choice)
    requires w < |s.workers| && s.workers[w] == Disc(Notify, c, back) && StepDiscNotify(s, w, c, back) == Some(s')
    ensures Advances(s, s', w, ch)
  {
    if c in s.ctxs {
      assert s' == To(s, w, Disc(Erase, c, back)).(objs := s'.objs, conns := s'.conns, peers := s'.peers);
      hide StepDiscNotify, Advances;
      CallbackAdvances(s, s', w, Disc(Erase, c, back), ch);
    } else {
      assert Local(s, s', w, Crashed);
      hide StepDiscNotify, Advances;
      LocalAdvances(s, s', w, Crashed, ch);
    }
  }

  lemma DiscEraseAdvances(s: State, s': State, w: nat, c: CtxId, back: Option<CtxId>, ch: Choice)
    requires w < |s.workers| && s.workers[w] == Disc(Erase, c, back) && StepDiscErase(s, w, c, back) == Some(s')
    ensures Advances(s, s', w, ch)
  {
    if c in s.ctxs {
    } else {
    }
  }

  lemma DiscCloseAdvances(s: State, s': State, w: nat, c: CtxId, back: Option<CtxId>, ch: Choice)
    requires w < |s.workers| && s.workers[w] == Disc(Close, c, back) && StepDiscClose(s, w, c, back) == Some(s')
    ensures Advances(s, s', w, ch)
  {
    if c in s.ctxs {
    } else {
    }
  }

  lemma DiscLockAdvances(s: State, s': State, w: nat, c: CtxId, back: Option<CtxId>, ch: Choice)
    requires w < |s.workers| && s.workers[w] == Disc(Lock, c, back) && StepDiscLock(s, w, c, back) == Some(s')
    ensures Advances(s, s', w, ch)
  {
  }

  lemma DiscRemoveAdvances(s: State, s': State, w: nat, c: CtxId, back: Option<CtxId>, ch: Choice)
    requires w < |s.workers| && s.workers[w] == Disc(Remove, c, back) && StepDisc(s, w, Remove, c, back) == Some(s')
    ensures Advances(s, s', w, ch)
  {
  }

  lemma DiscFreeAdvances(s: State, s': State, w: nat, c: CtxId, back: Option<CtxId>, ch: Choice)
    requires w < |s.workers| && s.workers[w] == Disc(Free, c, back) && StepDisc(s, w, Free, c, back) == Some(s')
    ensures Advances(s, s', w, ch)
  {
    if c in s.ctxs {
    } else {
    }
  }

  lemma DiscUnlockAdvances(s: State, s': State, w: nat, c: CtxId, back: Option<CtxId>, ch: Choice)
    requires w < |s.workers| && s.workers[w] == Disc(Unlock, c, back) && StepDisc(s, w, Unlock, c, back) == Some(s')
    ensures Advances(s, s', w, ch)
  {
    if back.Some? {
    } else {
    }
  }

  lemma DiscAdvances(s: State, s': State, w: nat, stage: Stage, c: CtxId, back: Option<CtxId>, ch: Choice)
    requires w < |s.workers| && s.workers[w] == Disc(stage, c, back) && StepDisc(s, w, stage, c, back) == Some(s')
    ensures Advances(s, s', w, ch)
  {
    hide StepDiscTest, StepDiscNotify, StepDiscErase, StepDiscClose, Advances;
    match stage
    case TestSocket => DiscTestAdvances(s, s', w, c, back, ch);
    case Notify => DiscNotifyAdvances(s, s', w, c, back, ch);
    case Erase => DiscEraseAdvances(s, s', w, c, back, ch);
    case Close => DiscCloseAdvances(s, s', w, c, back, ch);
    case Lock => DiscLockAdvances(s, s', w, c, back, ch);
    case Remove => DiscRemoveAdvances(s, s', w, c, back, ch);
    case Free => DiscFreeAdvances(s, s', w, c, back, ch);
    case Unlock => DiscUnlockAdvances(s, s', w, c, back, ch);
  }

  /**
   Every step of a worker brings it forward; only a dequeued packet can start another round, and not while
   exiting.
   */
  lemma WorkerAdvances(s: State, s': State, w: nat, ch: Choice)
    requires w < |s.workers| && StepWorker(s, w, ch) == Some(s')
    ensures Advances(s, s', w, ch)
  {
    hide Advances, StepDequeue, StepCheck, StepAccOption, StepAccCreate, StepAccList, StepAccMap, StepAccDeliver,
         StepAccRecv, StepAccSocket, StepAccPost, StepRcvCount, StepRcvFetch, StepRcvDeliver, StepRcvPost, StepDisc,
         DispatchTo;
    match s.workers[w]
    case Idle => DequeueAdvances(s, s', w, ch);
    case Dequeued(p) => CheckAdvances(s, s', w, p, ch);
    case Dispatching(p) => DispatchAdvances(s, s', w, p, ch);
    case AccOption(a, n) => AccOptionAdvances(s, s', w, a, n, ch);
    case AccCreate(a, n) => AccCreateAdvances(s, s', w, a, n, ch);
    case AccList(a, n, c) => AccListAdvances(s, s', w, a, n, c, ch);
    case AccMap(a, n, c) => AccMapAdvances(s, s', w, a, n, c, ch);
    case AccDeliver(a, n, c, k) => AccDeliverAdvances(s, s', w, a, n, c, k, ch);
    case AccRecv(a, c) => AccRecvAdvances(s, s', w, a, c, ch);
    case AccSocket(a) => AccSocketAdvances(s, s', w, a, ch);
    case AccPost(a) => AccPostAdvances(s, s', w, a, ch);
    case RcvCount(a, ov, n) => RcvCountAdvances(s, s', w, a, ov, n, ch);
    case RcvFetch(a, ov, n) => RcvFetchAdvances(s, s', w, a, ov, n, ch);
    case RcvDeliver(a, ov, n, k) => RcvDeliverAdvances(s, s', w, a, ov, n, k, ch);
    case RcvPost(a, ov) => RcvPostAdvances(s, s', w, a, ov, ch);
    case Disc(stage, c, back) => DiscAdvances(s, s', w, stage, c, back, ch);
  }

  // ---- What the other steps leave alone

  /** A step of the main thread or of the system. */
  ghost predicate WorkersRest(s: State, s': State) {
    && s' == s.(running := s'.running, exiting := s'.exiting, listener := s'.listener, ctxs := s'.ctxs, main := s'.main,
                open := s'.open, keyOf := s'.keyOf, peerOf := s'.peerOf, peers := s'.peers,
                kernel := s'.kernel, queue := s'.queue)
    && (s.exiting ==> s'.exiting)
    && (s.main != Listening ==> s'.listener == s.listener)
    && |s'.queue| >= |s.queue| && s'.queue[..|s.queue|] == s.queue
  }

  lemma FlagsRest(s: State, s': State, ch: Choice)
    requires s.main == Boot || s.main == Serving
    requires StepMain(s, ch) == Some(s')
    ensures WorkersRest(s, s')
  {
    if s.main == Boot {
    } else {
    }
  }

  lemma PostingRests(s: State, s': State, ch: Choice)
    requires s.main.Posting? && StepMain(s, ch) == Some(s')
    ensures WorkersRest(s, s')
  {
    if s.main.i < |s.workers| {
      var extra := if s.port then [ExitPacket] else [];
      assert s' == s.(main := Posting(s.main.i + 1), queue := s.queue + extra);
      hide StepMain;
    } else {
      assert s' == s.(main := Closing);
      hide StepMain;
    }
  }

  lemma ListenRests(s: State, s': State, ch: Choice)
    requires s.main == Listening && StepMain(s, ch) == Some(s')
    ensures WorkersRest(s, s')
  {
  }

  lemma ArmRests(s: State, s': State, ch: Choice)
    requires (s.main == Arming || s.main == ArmPost) && StepMain(s, ch) == Some(s')
    ensures WorkersRest(s, s')
  {
    if s.main == Arming {
    } else {
    }
  }

  lemma CloseRests(s: State, s': State, ch: Choice)
    requires s.main == Closing && StepMain(s, ch) == Some(s')
    ensures WorkersRest(s, s')
  {
    var closes := s.listener.Some? && s.listener.value in s.ctxs && s.ctxs[s.listener.value].socket.Some?;
    if closes {
      var x := s.ctxs[s.listener.value];
      assert s' == SetCtx(CloseSocket(s, x.socket.value), s.listener.value, x.(socket := None)).(main := Stopped);
      hide StepMain;
    } else {
      assert s' == s.(main := Stopped);
      hide StepMain;
    }
  }

  lemma MainRests(s: State, s': State, ch: Choice)
    requires StepMain(s, ch) == Some(s')
    ensures WorkersRest(s, s')
  {
    hide WorkersRest;
    match s.main
    case Listening => ListenRests(s, s', ch);
    case Arming => ArmRests(s, s', ch);
    case ArmPost => ArmRests(s, s', ch);
    case Closing => CloseRests(s, s', ch);
    case Boot => FlagsRest(s, s', ch);
    case Serving => FlagsRest(s, s', ch);
    case Posting(_) => PostingRests(s, s', ch);
  }

  lemma SystemRests(s: State, l: Label)
    requires !l.Work? && !l.MainStep? && Step(s, l).Some?
    ensures WorkersRest(s, Step(s, l).value) && Step(s, l).value.main == s.main && Step(s, l).value.exiting == s.exiting
    ensures Step(s, l).value.listener == s.listener
  {
  }

  /** What no step undoes: the threads there are, those that have returned, the exit flag, the listening context. */
  lemma StepRests(s: State, l: Label)
    requires Step(s, l).Some?
    ensures var s' := Step(s, l).value;
      && |s'.workers| == |s.workers|
      && (forall w :: 0 <= w < |s.workers| && s.workers[w] == Returned ==> s'.workers[w] == Returned)
      && (s.exiting ==> s'.exiting)
      && (s.main != Listening ==> s'.listener == s.listener)
  {
    hide StepWorker, StepMain;
    match l
    case Work(w, ch) => WorkerAdvances(s, Step(s, l).value, w, ch);
    case MainStep(ch) => MainRests(s, Step(s, l).value, ch);
    case _ => SystemRests(s, l);
  }
}
