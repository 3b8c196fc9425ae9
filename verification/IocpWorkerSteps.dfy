/** Every step of a worker keeps the invariant. One lemma for each statement of the worker's code. */
module IocpWorkerSteps {
  import opened Prelude
  import opened IocpModel
  import opened IocpInvariant
  import opened IocpOwnership

  lemma QuietPacket(s: State, s': State, p: Packet)
    requires Quiet(s, s') && PacketOk(s, p) && s'.exiting == s.exiting
    ensures PacketOk(s', p)
  {
    if p.Completion? {
      SameTablesSame(s, s', p.ov);
    }
    PacketKept(s, s', p);
  }

  lemma PacketDropped(s: State, p: Packet)
    requires PacketOk(s, p) && p.Completion?
    ensures DroppedOk(s, p.ov)
  {
  }

  lemma CheckShape(s: State, s': State, w: nat, p: Packet, dropped: seq<CtxId>)
    requires w < |s.workers| && s.workers[w] == Dequeued(p)
    requires s' == StepCheck(s, w, p).value && dropped == if s.exiting || !s.running then Tokens(p) else []
    ensures WorkerMoves(s, s', w, [], dropped) && Quiet(s, s') && s'.port == s.port && s'.locker == s.locker
    ensures s'.workers[w] == if s.exiting || !s.running then Returned else Dispatching(p)
    ensures Balanced(s, s', w, [], dropped)
  {
    assert s'.dropped == s.dropped + dropped;
    assert s'.kernel == s.kernel + [];
  }

  lemma CheckHands(s: State, s': State, w: nat, p: Packet, dropped: seq<CtxId>)
    requires PacketOk(s, p) && Quiet(s, s') && s'.exiting == s.exiting && w < |s'.workers|
    requires || (s'.workers[w] == Returned && dropped == Tokens(p))
             || (s'.workers[w] == Dispatching(p) && dropped == [] && !s.exiting)
    ensures Handed(s', w, [], dropped)
  {
    QuietPacket(s, s', p);
    if p.Completion? {
      PacketDropped(s', p);
    }
  }

  lemma CheckMoves(s: State, s': State, w: nat, p: Packet, dropped: seq<CtxId>)
    requires w < |s.workers| && s.workers[w] == Dequeued(p) && WorkerOk(s, Dequeued(p)) && LockerOk(s)
    requires s' == StepCheck(s, w, p).value && dropped == if s.exiting || !s.running then Tokens(p) else []
    ensures QuietMove(s, s', w, [], dropped)
  {
    CheckShape(s, s', w, p, dropped);
    CheckHands(s, s', w, p, dropped);
    hide PacketOk, WorkerOk, DroppedOk, LockerOk, StepCheck;
    LockerAfterWorker(s, s', w, [], dropped);
  }

  lemma HeldLive(s: State, wk: Worker, c: CtxId)
    requires WorkerOk(s, wk) && HeldCount(wk, c) > 0
    ensures c in s.ctxs
  {
  }

  lemma SameTablesWorker(s: State, s': State, wk: Worker)
    requires WorkerOk(s, wk) && SameTables(s, s') && (s.exiting ==> s'.exiting)
    ensures WorkerOk(s', wk)
  {
    forall c | HeldCount(wk, c) > 0 ensures Same(s, s', c) {
      HeldLive(s, wk, c);
      SameTablesSame(s, s', c);
    }
    WorkerKept(s, s', wk);
  }

  /** The successor is already fine before the step, which then changes nothing it relies on. */
  lemma QuietTo(s: State, s': State, w: nat, dropped: seq<CtxId>, wk: Worker)
    requires w < |s.workers| && WorkerOk(s, wk) && LockerOk(s)
    requires s' == To(s, w, wk).(dropped := s.dropped + dropped, port := s'.port)
    requires s'.port == s.port || (s.listener.Some? && s.listener.value in dropped)
    requires Inside(wk) == Inside(s.workers[w])
    requires forall i :: 0 <= i < |dropped| ==> DroppedOk(s', dropped[i])
    requires Balanced(s, s', w, [], dropped)
    ensures QuietMove(s, s', w, [], dropped)
  {
    assert s'.kernel == s.kernel + [];
    SameTablesWorker(s, s', wk);
    LockerAfterWorker(s, s', w, [], dropped);
  }

  lemma ListenerDropped(s: State, a: CtxId)
    requires IsListener(s, a)
    ensures DroppedOk(s, a)
  {
  }

  lemma DispatchFact(s: State, p: Packet)
    requires WorkerOk(s, Dispatching(p)) && ListenerOk(s)
    ensures WorkerOk(s, DispatchTo(s, p)) && !Inside(DispatchTo(s, p))
    ensures forall c: CtxId :: HeldCount(DispatchTo(s, p), c) == HeldCount(Dispatching(p), c)
  {
  }

  lemma DispatchMoves(s: State, s': State, w: nat, p: Packet)
    requires w < |s.workers| && s.workers[w] == Dispatching(p) && WorkerOk(s, s.workers[w])
    requires ListenerOk(s) && LockerOk(s) && s' == To(s, w, DispatchTo(s, p))
    ensures QuietMove(s, s', w, [], [])
  {
    DispatchFact(s, p);
    assert s'.dropped == s.dropped + [];
    QuietTo(s, s', w, [], DispatchTo(s, p));
  }

  lemma AccOptionGoesTo(s: State, s': State, w: nat, a: CtxId, n: nat, ch: Choice, wk: Worker)
    requires w < |s.workers| && s.workers[w] == AccOption(a, n) && WorkerOk(s, AccOption(a, n))
    requires StepAccOption(s, w, a, n, ch) == Some(s') && wk == if ch.ok then AccCreate(a, n) else Returned
    ensures s' == To(s, w, wk).(dropped := s.dropped + if ch.ok then [] else [a])
    ensures WorkerOk(s, wk) && IsListener(s, a)
  {
    assert s.dropped + [] == s.dropped;
  }

  lemma AccOptionMoves(s: State, s': State, w: nat, a: CtxId, n: nat, ch: Choice, dropped: seq<CtxId>)
    requires w < |s.workers| && s.workers[w] == AccOption(a, n) && WorkerOk(s, AccOption(a, n)) && LockerOk(s)
    requires StepAccOption(s, w, a, n, ch) == Some(s') && dropped == if ch.ok then [] else [a]
    ensures QuietMove(s, s', w, [], dropped)
  {
    hide WorkerOk, LockerOk, StepAccOption, DroppedOk;
    var wk := if ch.ok then AccCreate(a, n) else Returned;
    AccOptionGoesTo(s, s', w, a, n, ch, wk);
    ListenerDropped(s', a);
    QuietTo(s, s', w, dropped, wk);
  }

  /** The listening context is given up: its packet has been consumed and no AcceptEx follows. */
  lemma GiveUpMoves(s: State, s': State, w: nat, a: CtxId, wk: Worker)
    requires w < |s.workers| && WorkerOk(s, s.workers[w]) && LockerOk(s) && IsListener(s, a)
    requires (s.workers[w].AccCreate? && s.workers[w].a == a) || s.workers[w] == AccPost(a)
    requires wk == Idle || wk == Returned
    requires s' == To(s, w, wk).(dropped := s.dropped + [a], port := s'.port)
    ensures QuietMove(s, s', w, [], [a])
  {
    ListenerDropped(s', a);
    QuietTo(s, s', w, [a], wk);
  }

  lemma AccPostMoves(s: State, s': State, w: nat, a: CtxId, ch: Choice) returns (posted: seq<Pending>)
    requires w < |s.workers| && s.workers[w] == AccPost(a) && WorkerOk(s, AccPost(a)) && LockerOk(s) && KeysOk(s)
    requires StepAccPost(s, w, a, ch) == Some(s') && ch.ok
    ensures QuietMove(s, s', w, posted, [])
  {
    posted := [Pending(a, a, AcceptOp(s.ctxs[a].accepted.value))];
    assert s'.dropped == s.dropped + [];
    assert s'.kernel == s.kernel + posted;
    SameTablesSame(s, s', a);
    SameTablesWorker(s, s', AccPost(a));
    LockerAfterWorker(s, s', w, posted, []);
  }

  /** The socket of a context in handle_receive is always in the map: "Socket does not exist" is never printed. */
  lemma RcvCountMoves(s: State, s': State, w: nat, a: CtxId, ov: CtxId, n: nat)
    requires w < |s.workers| && s.workers[w] == RcvCount(a, ov, n) && WorkerOk(s, s.workers[w]) && LockerOk(s)
    requires StepRcvCount(s, w, a, ov, n) == Some(s')
    ensures |s'.workers| == |s.workers| && s'.workers[w] == RcvFetch(a, ov, n)
    ensures QuietMove(s, s', w, [], [])
  {
    assert s'.dropped == s.dropped + [];
    assert WorkerOk(s, RcvFetch(a, ov, n));
    QuietTo(s, s', w, [], RcvFetch(a, ov, n));
  }

  /** The entry it finds there is a connection object, not a null pointer. */
  lemma RcvFetchMoves(s: State, s': State, w: nat, a: CtxId, ov: CtxId, n: nat)
    requires w < |s.workers| && s.workers[w] == RcvFetch(a, ov, n) && WorkerOk(s, s.workers[w]) && LockerOk(s)
    requires StepRcvFetch(s, w, a, ov, n) == Some(s')
    ensures |s'.workers| == |s.workers| && s'.workers[w].RcvDeliver?
    ensures QuietMove(s, s', w, [], [])
  {
    assert s'.dropped == s.dropped + [];
    assert WorkerOk(s, s'.workers[w]);
    QuietTo(s, s', w, [], s'.workers[w]);
  }

  // ---- disconnect: entering, testing, leaving

  lemma DiscLockMoves(s: State, s': State, w: nat, c: CtxId, back: Option<CtxId>)
    requires w < |s.workers| && s.workers[w] == Disc(Lock, c, back) && WorkerOk(s, s.workers[w]) && LockerOk(s)
    requires StepDiscLock(s, w, c, back) == Some(s')
    ensures QuietMove(s, s', w, [], [])
  {
    assert s'.dropped == s.dropped + [];
    assert s'.kernel == s.kernel + [];
    assert WorkerOk(s, Disc(TestSocket, c, back));
    hide WorkerOk, Same, Look;
    SameTablesWorker(s, s', Disc(TestSocket, c, back));
  }

  /** The test for the listening socket never succeeds, and there is no accept socket to close. */
  lemma DiscTestFalls(s: State, w: nat, c: CtxId, back: Option<CtxId>)
    requires w < |s.workers| && WorkerOk(s, Disc(TestSocket, c, back)) && ListenerOk(s) && KeysOk(s)
    ensures StepDiscTest(s, w, c, back) == Some(To(s, w, Disc(Notify, c, back)))
  {
    var l := s.listener.value;
    assert s.keyOf[s.ctxs[c].socket.value] == c;
    assert s.ctxs[l].socket != s.ctxs[c].socket;
  }

  lemma DiscTestHands(s: State, c: CtxId, back: Option<CtxId>)
    requires WorkerOk(s, Disc(TestSocket, c, back))
    ensures WorkerOk(s, Disc(Notify, c, back))
  {
  }

  lemma DiscTestMoves(s: State, s': State, w: nat, c: CtxId, back: Option<CtxId>)
    requires w < |s.workers| && s.workers[w] == Disc(TestSocket, c, back) && WorkerOk(s, s.workers[w])
    requires LockerOk(s) && ListenerOk(s) && KeysOk(s)
    requires StepDiscTest(s, w, c, back) == Some(s')
    ensures s' == To(s, w, Disc(Notify, c, back))
    ensures QuietMove(s, s', w, [], [])
  {
    hide StepDiscTest, WorkerOk, ListenerOk, KeysOk, LockerOk, QuietMove;
    DiscTestFalls(s, w, c, back);
    DiscTestHands(s, c, back);
    assert s'.dropped == s.dropped + [];
    QuietTo(s, s', w, [], Disc(Notify, c, back));
  }

  lemma DiscUnlockMoves(s: State, s': State, w: nat, c: CtxId, back: Option<CtxId>)
    requires w < |s.workers| && s.workers[w] == Disc(Unlock, c, back) && WorkerOk(s, s.workers[w]) && LockerOk(s)
    requires StepDisc(s, w, Unlock, c, back) == Some(s')
    ensures QuietMove(s, s', w, [], [])
  {
    assert s'.dropped == s.dropped + [];
    assert s'.kernel == s.kernel + [];
    assert WorkerOk(s, s'.workers[w]);
    SameTablesWorker(s, s', s'.workers[w]);
  }
}
