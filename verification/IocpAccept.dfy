/** Re-arming of the accept: when the listening context keeps going round, and when it is lost. */
module IocpAccept {
  import opened Prelude
  import opened IocpModel
  import opened IocpInvariant
  import opened IocpOwnership
  import opened IocpWorkerSteps
  import opened IocpTableSteps
  import opened IocpSystemSteps
  import opened IocpProgress
  import opened IocpTheorems

  /** No call that accepts the next connection failed in the first `k` steps. */
  ghost predicate AcceptsSucceed(h: History, k: nat)
    requires k <= |h.labels| < |h.states|
  {
    forall j :: 0 <= j < k ==> !FailsAt(h.states[j], h.labels[j])
  }

  ghost predicate FailsAt(s: State, l: Label) {
    l.Work? && l.w < |s.workers| && AcceptFails(s.workers[l.w], l.ch)
  }

  /** Before shutdown every dequeued packet is dispatched. */
  lemma RunningWhenDequeued(s: State, w: nat)
    requires Inv(s) && !s.exiting && w < |s.workers| && s.workers[w].Dequeued?
    ensures s.running
  {
    if !s.running {
      NothingYet(s);
    }
  }

  /** The test for the listening socket in disconnect drops nothing. */
  lemma TestDropsNothing(s: State, s': State, w: nat, ch: Choice)
    requires Inv(s) && w < |s.workers| && s.workers[w].Disc? && s.workers[w].stage == TestSocket
    requires StepWorker(s, w, ch) == Some(s')
    ensures s'.dropped == s.dropped
  {
    WorkerFact(s, w);
    DiscTestMoves(s, s', w, s.workers[w].c, s.workers[w].back);
  }

  /** Before shutdown a step drops a context exactly when it is a failed accept, and then it is the listening one. */
  lemma DropsOnFailure(s: State, l: Label)
    requires Inv(s) && Step(s, l).Some? && !s.exiting
    ensures Step(s, l).value.dropped == s.dropped || FailsAt(s, l)
    ensures FailsAt(s, l) ==> s.listener.Some? && Step(s, l).value.dropped == s.dropped + [s.listener.value]
  {
    hide StepWorker, StepMain, Inv;
    var s' := Step(s, l).value;
    match l
    case Work(w, ch) =>
      WorkerDrops(s, s', w, ch);
    case MainStep(ch) => MainRests(s, s', ch);
    case _ => SystemRests(s, l);
  }

  lemma WorkerDrops(s: State, s': State, w: nat, ch: Choice)
    requires Inv(s) && w < |s.workers| && StepWorker(s, w, ch) == Some(s') && !s.exiting
    ensures s'.dropped == s.dropped || AcceptFails(s.workers[w], ch)
    ensures AcceptFails(s.workers[w], ch) ==> s.listener.Some? && s'.dropped == s.dropped + [s.listener.value]
  {
    hide StepWorker, Inv;
    WorkerFact(s, w);
    WorkerAdvances(s, s', w, ch);
    if s.workers[w].Dequeued? {
      RunningWhenDequeued(s, w);
    } else if s.workers[w].Disc? && s.workers[w].stage == TestSocket {
      TestDropsNothing(s, s', w, ch);
    } else if AcceptFails(s.workers[w], ch) {
      WorkerKeeps(s, s', w, ch);
      WorkerFact(s', w);
      FailureIsListener(s, s.workers[w], ch);
    }
  }

  lemma ListeningFirst(s: State)
    requires Inv(s) && s.listener.Some?
    ensures s.main != Listening
  {
  }

  lemma FailureIsListener(s: State, wk: Worker, ch: Choice)
    requires WorkerOk(s, wk) && AcceptFails(wk, ch)
    ensures s.listener == Some(wk.a)
  {
  }

  lemma {:induction false} DropsExactly(n: nat, h: History, k: nat)
    requires Execution(n, h) && k <= |h.labels| && !h.states[k].exiting
    ensures h.states[k].dropped == [] <==> AcceptsSucceed(h, k)
    ensures h.states[k].dropped != [] ==>
      h.states[k].listener.Some? && h.states[k].dropped[0] == h.states[k].listener.value
  {
    hide Step, Inv, FailsAt;
    if k > 0 {
      var s, l := h.states[k - 1], h.labels[k - 1];
      assert StepAt(h, k - 1);
      StepRests(s, l);
      DropsExactly(n, h, k - 1);
      ExecutionKeepsInv(n, h, k - 1);
      DropsOnFailure(s, l);
      if s.listener.Some? {
        ListeningFirst(s);
      }
    }
  }

  /** Before shutdown only the listening context is ever lost. */
  lemma {:induction false} OnlyListenerDropped(n: nat, h: History, k: nat)
    requires Execution(n, h) && k <= |h.labels| && !h.states[k].exiting
    ensures forall i :: 0 <= i < |h.states[k].dropped| ==> h.states[k].listener == Some(h.states[k].dropped[i])
  {
    hide Step, Inv, FailsAt;
    if k > 0 {
      var s, l := h.states[k - 1], h.labels[k - 1];
      assert StepAt(h, k - 1);
      StepRests(s, l);
      OnlyListenerDropped(n, h, k - 1);
      ExecutionKeepsInv(n, h, k - 1);
      DropsOnFailure(s, l);
      if s.listener.Some? {
        ListeningFirst(s);
      }
    }
  }

  /**
   In every reachable state before shutdown an accepted context is in exactly one place, and that is a pending
   operation, a queued packet or a worker: none is ever lost.
   */
  lemma AcceptedInOnePlace(n: nat, s: State, c: CtxId)
    requires Reachable(n, s) && !s.exiting && c in s.ctxs && s.listener != Some(c)
    ensures exists p :: IsAt(s, c, p) && (p.InKernel? || p.InQueue? || p.AtWorker?)
    ensures forall p, q :: IsAt(s, c, p) && IsAt(s, c, q) ==> p == q
  {
    hide Step, Inv, Initial;
    var h: History, k: nat :| Execution(n, h) && k <= |h.labels| && h.states[k] == s;
    OnlyListenerDropped(n, h, k);
    SingleOwnership(n, s);
    var p :| IsAt(s, c, p);
  }

  /** The number of AcceptEx calls under way: pending, queued, or in the hands of a worker or the main thread. */
  function AcceptsUnderWay(s: State): nat {
    if s.listener.Some? then Places(s, s.listener.value) - Sum(s.dropped, DroppedIs(s.listener.value)) else 0
  }

  /** An operation is an AcceptEx exactly when it is on the listening context. */
  lemma AcceptOpsAreListener(s: State, i: nat)
    requires Holders(s) && i < |s.kernel|
    ensures s.kernel[i].op.AcceptOp? <==> s.listener == Some(s.kernel[i].ov)
  {
    assert PendingOk(s, s.kernel[i]);
  }

  /**
   In every execution before shutdown, with any number of workers, once the listening context exists: exactly one
   accept is under way if and only if no call that accepts the next connection has failed. After the first
   such failure none is, and the server accepts no more. Pending AcceptEx operations are on the listening
   context only.
   */
  lemma AcceptRearmed(n: nat, h: History, k: nat)
    requires Execution(n, h) && k <= |h.labels| && !h.states[k].exiting && h.states[k].listener.Some?
    ensures AcceptsUnderWay(h.states[k]) == if AcceptsSucceed(h, k) then 1 else 0
    ensures var s := h.states[k];
      forall i :: 0 <= i < |s.kernel| ==> (s.kernel[i].op.AcceptOp? <==> s.listener == Some(s.kernel[i].ov))
  {
    hide AcceptsSucceed, Step, Initial;
    var s := h.states[k];
    ExecutionKeepsInv(n, h, k);
    DropsExactly(n, h, k);
    forall i | 0 <= i < |s.kernel| ensures s.kernel[i].op.AcceptOp? <==> s.listener == Some(s.kernel[i].ov) {
      AcceptOpsAreListener(s, i);
    }
    OneOrDropped(s);
  }

  lemma OneOrDropped(s: State)
    requires Inv(s) && s.listener.Some?
    requires s.dropped != [] ==> s.dropped[0] == s.listener.value
    ensures AcceptsUnderWay(s) == if s.dropped == [] then 1 else 0
  {
    var l := s.listener.value;
    assert Places(s, l) == 1;
    if s.dropped != [] {
      SumAtLeast(s.dropped, 0, DroppedIs(l));
    }
  }
}
