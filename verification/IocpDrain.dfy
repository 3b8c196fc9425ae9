/**
 When the workers return after shutdown, exactly. A worker that is on its way needs one more packet, any
 packet, to read the exit flag; without a port it comes from the queue as it is, or from a receive that ends.
 */
module IocpDrain {
  import opened Prelude
  import opened IocpModel
  import opened IocpInvariant
  import opened IocpOwnership
  import opened IocpWorkerSteps
  import opened IocpTableSteps
  import opened IocpSystemSteps
  import opened IocpProgress
  import opened IocpAccept
  import opened IocpShutdown

  /** `all` continues `h`, and only workers move in the continuation. */
  ghost predicate WorkOnly(h: History, all: History) {
    && h.states <= all.states && h.labels <= all.labels
    && forall j :: |h.labels| <= j < |all.labels| ==> all.labels[j].Work?
  }

  /** There is a packet for every worker that still has to dequeue one. */
  ghost predicate EnoughPackets(s: State) {
    |s.queue| >= Sum(s.workers, StillToDequeue())
  }

  /** Packets in the queue, less workers that need one. */
  function Spare(s: State): int {
    |s.queue| - Sum(s.workers, StillToDequeue())
  }

  lemma ListenerHeldMeansPort(s: State, w: nat)
    requires Inv(s) && w < |s.workers| && s.listener.Some? && HeldCount(s.workers[w], s.listener.value) > 0
    ensures s.port
  {
    hide Holders, WorkerOk;
    WorkerExclusive(s, w, s.listener.value);
  }

  /** Without a port the listening context has been dropped, so no worker is accepting a connection. */
  lemma NobodyAccepts(s: State, w: nat)
    requires Inv(s) && !s.port && w < |s.workers|
    ensures !Accepting(s.workers[w])
  {
    hide Inv, WorkerOk;
    WorkerFact(s, w);
    if Accepting(s.workers[w]) {
      AcceptingHolds(s, s.workers[w]);
      ListenerHeldMeansPort(s, w);
    }
  }

  lemma AcceptingHolds(s: State, wk: Worker)
    requires WorkerOk(s, wk) && Accepting(wk)
    ensures s.listener.Some? && HeldCount(wk, s.listener.value) > 0
  {
  }

  /** While exiting a step of a worker uses up a packet exactly when it lets the worker go. */
  lemma SpareKept(s: State, s': State, w: nat, ch: Choice)
    requires Advances(s, s', w, ch) && s.exiting && !AcceptFails(s.workers[w], ch)
    ensures Spare(s') == Spare(s)
  {
    SumUpdate(s.workers, w, s'.workers[w], StillToDequeue());
  }

  /**
   Without a port packets do not become fewer, compared with the workers that need one; workers alone keep the
   balance.
   */
  lemma SpareGrows(s: State, l: Label)
    requires Inv(s) && s.exiting && !s.port && Step(s, l).Some?
    ensures var s' := Step(s, l).value; s'.exiting && !s'.port && Spare(s') >= Spare(s)
    ensures l.Work? ==> Spare(Step(s, l).value) == Spare(s)
  {
    hide Inv, StepWorker, StepMain;
    match l
    case Work(w, ch) =>
      NobodyAccepts(s, w);
      WorkerAdvances(s, Step(s, l).value, w, ch);
      SpareKept(s, Step(s, l).value, w, ch);
    case MainStep(ch) => MainRests(s, Step(s, l).value, ch);
    case _ => SystemRests(s, l);
  }

  lemma {:induction false} SpareStays(n: nat, h: History, k: nat, j: nat)
    requires Execution(n, h) && k <= j <= |h.labels| && h.states[k].exiting && !h.states[k].port
    requires forall i :: k <= i < j ==> h.labels[i].Work?
    ensures h.states[j].exiting && !h.states[j].port && Spare(h.states[j]) == Spare(h.states[k])
  {
    hide Step, Inv, Initial, Spare;
    if j > k {
      SpareStays(n, h, k, j - 1);
      assert StepAt(h, j - 1);
      ExecutionKeepsInv(n, h, j - 1);
      SpareGrows(h.states[j - 1], h.labels[j - 1]);
    }
  }

  /** A worker that is stuck waits at the empty queue, if it has not returned. */
  lemma StuckAtQueue(s: State, w: nat)
    requires Inv(s) && WorkersStuck(s) && w < |s.workers| && s.workers[w] != Returned
    ensures s.workers[w] == Idle && s.queue == []
  {
    hide Inv, Step;
    if s.workers[w] != Idle || s.queue != [] {
      var v := SomeoneMoves(s, w);
    }
  }

  /** Among stuck workers, all have returned exactly if no worker lacks a packet. */
  lemma StuckOutcome(s: State)
    requires Inv(s) && WorkersStuck(s)
    ensures AllReturned(s) <==> EnoughPackets(s)
  {
    hide Inv, WorkersStuck;
    if AllReturned(s) {
      SumZero(s.workers, StillToDequeue());
    } else {
      var w :| 0 <= w < |s.workers| && s.workers[w] != Returned;
      StuckAtQueue(s, w);
      SumAtLeast(s.workers, w, StillToDequeue());
    }
  }

  lemma ReturnedNeedNothing(s: State)
    requires AllReturned(s)
    ensures EnoughPackets(s)
  {
    SumZero(s.workers, StillToDequeue());
  }

  /** While exiting the workers can go on, by themselves, until none of them can move. */
  lemma {:induction false} RunOut(n: nat, h: History, k: nat) returns (all: History)
    requires Execution(n, h) && k <= |h.labels| && h.states[k].exiting
    ensures Execution(n, all) && WorkOnly(h, all) && WorkersStuck(Last(all))
    decreases 19 * n - WorkSteps(h, k, |h.labels|)
  {
    hide Step, Initial;
    all := h;
    WorkEnds(n, h, k, |h.labels|);
    if !WorkersStuck(Last(h)) {
      var w: nat, ch: Choice :| Step(Last(h), Work(w, ch)).Some?;
      var l, s := Work(w, ch), Step(Last(h), Work(w, ch)).value;
      var longer := Extended(h, l, s);
      ExtendExecution(n, h, l, s);
      WorkStepsPrefix(h, longer, k, |h.labels|);
      WorkEnds(n, longer, k, |longer.labels|);
      all := RunOut(n, longer, k);
    }
  }

  /** In a continuation by the workers alone from a state without a port. */
  lemma NoPortOutcome(n: nat, h: History, all: History)
    requires Execution(n, h) && Last(h).exiting && !Last(h).port && Execution(n, all) && WorkOnly(h, all)
    ensures AllReturned(Last(all)) ==> EnoughPackets(Last(h))
    ensures WorkersStuck(Last(all)) ==> (AllReturned(Last(all)) <==> EnoughPackets(Last(h)))
  {
    hide Step, Inv, Initial, WorkersStuck, AllReturned;
    SamePlace(h, all, |h.labels|);
    SpareStays(n, all, |h.labels|, |all.labels|);
    ExecutionKeepsInv(n, all, |all.labels|);
    if AllReturned(Last(all)) {
      ReturnedNeedNothing(Last(all));
    }
    if WorkersStuck(Last(all)) {
      StuckOutcome(Last(all));
    }
  }

  lemma SamePlace(h: History, all: History, k: nat)
    requires h.states <= all.states && k < |h.states|
    ensures all.states[k] == h.states[k]
  {
  }

  /** Some continuation by the workers alone ends with all of them returned. */
  ghost predicate CanReturnAlone(n: nat, h: History) {
    exists all: History :: Execution(n, all) && WorkOnly(h, all) && AllReturned(Last(all))
  }

  /**
   Without a port, at any moment of shutdown: the workers can all return by themselves if and only if the
   queue holds a packet for each of them that still has to dequeue one, and then they do, in whatever order
   they move; otherwise they end up stuck, in whatever order they move.
   */
  lemma NoPortReturnsExactly(n: nat, h: History)
    requires Execution(n, h) && Last(h).exiting && !Last(h).port
    ensures CanReturnAlone(n, h) <==> EnoughPackets(Last(h))
    ensures forall all: History :: Execution(n, all) && WorkOnly(h, all) && WorkersStuck(Last(all)) ==>
      (AllReturned(Last(all)) <==> EnoughPackets(Last(h)))
  {
    hide Initial, EnoughPackets, WorkersStuck, AllReturned, WorkOnly;
    forall all: History | Execution(n, all) && WorkOnly(h, all)
      ensures AllReturned(Last(all)) ==> EnoughPackets(Last(h))
      ensures WorkersStuck(Last(all)) ==> (AllReturned(Last(all)) <==> EnoughPackets(Last(h)))
    {
      NoPortOutcome(n, h, all);
    }
    var all := RunOut(n, h, |h.labels|);
  }

  /** With the port still there after the posting loop there are always enough packets. */
  lemma PortMeansEnough(n: nat, h: History)
    requires PostedAll(n, h, |h.labels|)
    ensures EnoughPackets(Last(h))
  {
    ExitPacketsSuffice(n, h, |h.labels|, |h.labels|);
    SumBound(Last(h).queue, IsExit(), 1);
  }

  /** Shutdown without a port, or with or without it after the posting loop. */
  ghost predicate Settled(s: State) {
    s.exiting && (!s.port || s.main == Closing || s.main == Stopped)
  }

  /**
   The same after the posting loop, with or without a port: all workers can return by themselves if and only if
   the queue holds a packet for each of them that still has to dequeue one; and in whatever order the workers
   move on their own until none of them can, all of them have returned exactly in that case.
   */
  lemma AloneExactly(n: nat, h: History)
    requires Execution(n, h) && Settled(Last(h))
    ensures CanReturnAlone(n, h) <==> EnoughPackets(Last(h))
    ensures forall all: History :: Execution(n, all) && WorkOnly(h, all) && WorkersStuck(Last(all)) ==>
      (AllReturned(Last(all)) <==> EnoughPackets(Last(h)))
  {
    hide Inv, EnoughPackets, WorkersStuck, AllReturned, CanReturnAlone, WorkOnly, Initial;
    if Last(h).port {
      PortMeansEnough(n, h);
      PortReturns(n, h);
    } else {
      NoPortReturnsExactly(n, h);
    }
  }

  lemma PortReturns(n: nat, h: History)
    requires PostedAll(n, h, |h.labels|)
    ensures CanReturnAlone(n, h)
    ensures forall all: History ::
              Execution(n, all) && WorkOnly(h, all) && WorkersStuck(Last(all)) ==> AllReturned(Last(all))
  {
    hide Inv, WorkersStuck, AllReturned, Initial;
    var back := WorkersReturn(n, h, |h.labels|);
    assert WorkOnly(h, back);
    forall all: History | Execution(n, all) && WorkOnly(h, all) && WorkersStuck(Last(all))
      ensures AllReturned(Last(all))
    {
      SamePlace(h, all, |h.labels|);
      ShutdownDrains(n, all, |h.labels|, |all.labels|);
    }
  }

  /** If there are not enough packets, the workers by themselves end up with one left waiting at the empty queue. */
  lemma LeftWaiting(n: nat, h: History) returns (all: History, w: nat)
    requires Execution(n, h) && Settled(Last(h)) && !EnoughPackets(Last(h))
    ensures Execution(n, all) && WorkOnly(h, all) && WorkersStuck(Last(all))
    ensures w < |Last(all).workers| && Last(all).workers[w] == Idle && Last(all).queue == []
  {
    hide Inv, WorkersStuck, EnoughPackets, WorkOnly, Initial;
    AloneExactly(n, h);
    all := RunOut(n, h, |h.labels|);
    w :| 0 <= w < |Last(all).workers| && Last(all).workers[w] != Returned;
    ExecutionKeepsInv(n, all, |all.labels|);
    StuckAtQueue(Last(all), w);
  }

  // ---- While the main thread and the system move too

  /** `all` continues `h`, whoever moves. */
  ghost predicate Continues(h: History, all: History) {
    h.states <= all.states && h.labels <= all.labels
  }

  /** Without a port, packets are never fewer than they were, compared with the workers that need one. */
  lemma {:induction false} EnoughStays(n: nat, h: History, k: nat, j: nat)
    requires Execution(n, h) && k <= j <= |h.labels| && h.states[k].exiting && !h.states[k].port
    ensures h.states[j].exiting && !h.states[j].port && Spare(h.states[j]) >= Spare(h.states[k])
  {
    hide Step, Inv, Initial, Spare;
    if j > k {
      EnoughStays(n, h, k, j - 1);
      assert StepAt(h, j - 1);
      ExecutionKeepsInv(n, h, j - 1);
      SpareGrows(h.states[j - 1], h.labels[j - 1]);
    }
  }

  /**
   However the execution goes on, the workers cannot get stuck before all of them have returned: with enough
   packets they all return, after at most 19 steps each.
   */
  ghost predicate MustReturn(n: nat, h: History) {
    forall all: History :: Execution(n, all) && Continues(h, all) && WorkersStuck(Last(all)) ==> AllReturned(Last(all))
  }

  lemma EnoughMustReturn(n: nat, h: History)
    requires Execution(n, h) && Last(h).exiting && !Last(h).port && EnoughPackets(Last(h))
    ensures MustReturn(n, h)
  {
    hide Step, Inv, Initial, WorkersStuck, AllReturned;
    forall all: History | Execution(n, all) && Continues(h, all) && WorkersStuck(Last(all))
      ensures AllReturned(Last(all))
    {
      SamePlace(h, all, |h.labels|);
      EnoughStays(n, all, |h.labels|, |all.labels|);
      ExecutionKeepsInv(n, all, |all.labels|);
      StuckOutcome(Last(all));
    }
  }

  lemma PortMustReturn(n: nat, h: History)
    requires PostedAll(n, h, |h.labels|)
    ensures MustReturn(n, h)
  {
    hide Inv, WorkersStuck, AllReturned, Initial;
    forall all: History | Execution(n, all) && Continues(h, all) && WorkersStuck(Last(all))
      ensures AllReturned(Last(all))
    {
      SamePlace(h, all, |h.labels|);
      ShutdownDrains(n, all, |h.labels|, |all.labels|);
    }
  }

  // ---- What can still become a packet

  /** The worker is on its way to posting another receive. */
  function Rearms(): Worker -> nat {
    (wk: Worker) =>
      if Receiving(wk) || (wk.Dispatching? && wk.p.Completion? && wk.p.ok && wk.p.size > 0) then 1 else 0
  }

  /** Packets there are and packets there may be, less workers that need one. */
  function Supply(s: State): int {
    |s.queue| + |s.kernel| + Sum(s.workers, Rearms()) - Sum(s.workers, StillToDequeue())
  }

  /** A pending receive and a worker that is about to post one count the same. */
  ghost predicate KeepsOperations(s: State, s': State, w: nat, ch: Choice) {
    && w < |s.workers| == |s'.workers|
    && |s'.kernel| + Rearms()(s'.workers[w]) <= |s.kernel| + Rearms()(s.workers[w])
    && (ch.ok && !s'.workers[w].Crashed? && !s'.workers[w].Unmodelled? && !Accepting(s'.workers[w]) ==>
         |s'.kernel| + Rearms()(s'.workers[w]) == |s.kernel| + Rearms()(s.workers[w]))
  }

  lemma DispatchOperations(s: State, s': State, w: nat, ch: Choice)
    requires w < |s.workers| && s.workers[w].Dispatching? && StepWorker(s, w, ch) == Some(s')
    ensures KeepsOperations(s, s', w, ch)
  {
  }

  /** Late in its round, or outside it, a worker posts no receive any more. */
  lemma LateRearmsNot(wk: Worker)
    requires Remaining(wk) < 13
    ensures Rearms()(wk) == 0
  {
  }

  lemma MovedKernel(s: State, s': State, w: nat, posted: seq<Pending>, dropped: seq<CtxId>)
    requires WorkerMoved(s, s', w, posted, dropped)
    ensures s'.kernel == s.kernel + posted
  {
  }

  lemma ReceivingOperations(s: State, s': State, w: nat, ch: Choice)
    requires w < |s.workers| && StepWorker(s, w, ch) == Some(s') && Receiving(s.workers[w])
    requires WorkerOk(s, s.workers[w]) && Tables(s)
    ensures KeepsOperations(s, s', w, ch)
  {
    hide StepWorker, WorkerOk, Tables, WorkerMoved;
    WorkerAdvances(s, s', w, ch);
    var posted := ReceivingMoved(s, s', w, ch);
    MovedKernel(s, s', w, posted, []);
    if s.workers[w].RcvPost? {
      LateRearmsNot(s'.workers[w]);
    }
  }

  lemma DiscOperations(s: State, s': State, w: nat, ch: Choice)
    requires w < |s.workers| && StepWorker(s, w, ch) == Some(s') && s.workers[w].Disc?
    requires WorkerOk(s, s.workers[w]) && Tables(s)
    ensures KeepsOperations(s, s', w, ch)
  {
    hide StepDisc, WorkerOk, Tables, WorkerMoved;
    WorkerAdvances(s, s', w, ch);
    DiscMoved(s, s', w, s.workers[w].stage, s.workers[w].c, s.workers[w].back);
    MovedKernel(s, s', w, [], []);
    LateRearmsNot(s'.workers[w]);
  }

  lemma LoopOperations(s: State, s': State, w: nat, ch: Choice)
    requires w < |s.workers| && StepWorker(s, w, ch) == Some(s') && s.exiting
    requires s.workers[w] == Idle || s.workers[w].Dequeued?
    ensures KeepsOperations(s, s', w, ch)
  {
    if s.workers[w] == Idle {
      assert s' == To(s, w, Dequeued(s.queue[0])).(queue := s.queue[1..]);
    } else {
      assert s' == To(s, w, Returned).(dropped := s.dropped + Tokens(s.workers[w].p));
    }
    hide StepWorker;
  }

  lemma WorkerOperations(s: State, s': State, w: nat, ch: Choice)
    requires w < |s.workers| && StepWorker(s, w, ch) == Some(s') && s.exiting && !Accepting(s.workers[w])
    requires WorkerOk(s, s.workers[w]) && Tables(s)
    ensures KeepsOperations(s, s', w, ch)
  {
    hide StepDequeue, StepCheck, DispatchTo, StepRcvCount, StepRcvFetch, StepRcvDeliver, StepRcvPost, StepDisc,
         KeepsOperations, WorkerOk, Tables;
    if Receiving(s.workers[w]) {
      ReceivingOperations(s, s', w, ch);
    } else if s.workers[w].Disc? {
      DiscOperations(s, s', w, ch);
    } else if s.workers[w].Dispatching? {
      DispatchOperations(s, s', w, ch);
    } else {
      LoopOperations(s, s', w, ch);
    }
  }

  lemma WorkerSupply(s: State, s': State, w: nat, ch: Choice)
    requires Inv(s) && s.exiting && !s.port && w < |s.workers| && StepWorker(s, w, ch) == Some(s')
    ensures s'.exiting && !s'.port && Supply(s') <= Supply(s)
    ensures ch.ok ==> Supply(s') == Supply(s)
  {
    hide Inv, StepWorker, WorkerOk, Tables, Rearms, StillToDequeue, KeepsOperations, Accepting;
    WorkerFact(s, w);
    NobodyAccepts(s, w);
    WorkerAdvances(s, s', w, ch);
    WorkerOperations(s, s', w, ch);
    WorkerKeeps(s, s', w, ch);
    WorkerFact(s', w);
    NobodyAccepts(s', w);
    SupplyMoves(s, s', w, ch);
  }

  lemma SupplyMoves(s: State, s': State, w: nat, ch: Choice)
    requires Advances(s, s', w, ch) && s.exiting && KeepsOperations(s, s', w, ch)
    requires !Accepting(s.workers[w]) && !Accepting(s'.workers[w]) && WorkerOk(s', s'.workers[w])
    ensures Supply(s') <= Supply(s)
    ensures ch.ok ==> Supply(s') == Supply(s)
  {
    SumUpdate(s.workers, w, s'.workers[w], Rearms());
    SumUpdate(s.workers, w, s'.workers[w], StillToDequeue());
  }

  lemma MainSupply(s: State, s': State, ch: Choice)
    requires Inv(s) && s.exiting && !s.port && StepMain(s, ch) == Some(s')
    ensures s'.exiting && !s'.port && Supply(s') == Supply(s)
  {
    assert MainPhaseOk(s);
    hide Inv, Supply;
    StoppingSupply(s, s', ch);
  }

  lemma StoppingSupply(s: State, s': State, ch: Choice)
    requires StoppingPhase(s.main) && s.exiting && !s.port && StepMain(s, ch) == Some(s')
    ensures s'.exiting && !s'.port && Supply(s') == Supply(s)
  {
    StoppingStep(s, s', ch);
    hide StepMain;
  }

  /** While stopping, the main thread posts what it can, and otherwise leaves queue and operations alone. */
  lemma StoppingStep(s: State, s': State, ch: Choice)
    requires StoppingPhase(s.main) && StepMain(s, ch) == Some(s')
    ensures s'.workers == s.workers && s'.kernel == s.kernel && s'.exiting == s.exiting && s'.port == s.port
    ensures !s.port ==> s'.queue == s.queue
    ensures s.main.Posting? ==> s'.main == if s.main.i < |s.workers| then Posting(s.main.i + 1) else Closing
  {
    if s.main.Posting? && s.main.i < |s.workers| {
      var posted := if s.port then [ExitPacket] else [];
      assert s' == s.(main := Posting(s.main.i + 1), queue := s.queue + posted);
      hide StepMain;
    } else if s.main.Posting? {
      assert s' == s.(main := Closing);
      hide StepMain;
    } else {
      ClosingStep(s, s', ch);
    }
  }

  lemma ClosedShape(s: State, s': State, sk: Socket)
    requires s' == CloseSocket(s, sk).(ctxs := s'.ctxs, main := Stopped)
    ensures s'.workers == s.workers && s'.kernel == s.kernel && s'.exiting == s.exiting && s'.port == s.port
    ensures s'.queue == s.queue
  {
  }

  lemma ClosesSocket(s: State, ch: Choice, l: CtxId)
    requires s.main == Closing && s.listener == Some(l) && l in s.ctxs && s.ctxs[l].socket.Some?
    ensures StepMain(s, ch).Some?
    ensures StepMain(s, ch).value
         == CloseSocket(s, s.ctxs[l].socket.value).(ctxs := StepMain(s, ch).value.ctxs, main := Stopped)
  {
  }

  lemma ClosesNothing(s: State, ch: Choice)
    requires s.main == Closing
    requires s.listener.None? || s.listener.value !in s.ctxs || s.ctxs[s.listener.value].socket.None?
    ensures StepMain(s, ch) == Some(s.(main := Stopped))
  {
  }

  lemma ClosingStep(s: State, s': State, ch: Choice)
    requires s.main == Closing && StepMain(s, ch) == Some(s')
    ensures s'.workers == s.workers && s'.kernel == s.kernel && s'.exiting == s.exiting && s'.port == s.port
    ensures s'.queue == s.queue
  {
    hide StepMain;
    if s.listener.Some? && s.listener.value in s.ctxs && s.ctxs[s.listener.value].socket.Some? {
      ClosesSocket(s, ch, s.listener.value);
      ClosedShape(s, s', s.ctxs[s.listener.value].socket.value);
    } else {
      ClosesNothing(s, ch);
    }
  }

  lemma SystemSupply(s: State, l: Label)
    requires !l.Work? && !l.MainStep? && Step(s, l).Some?
    ensures Supply(Step(s, l).value) == Supply(s)
    ensures Step(s, l).value.port == s.port
  {
    var s' := Step(s, l).value;
    assert |s'.queue| + |s'.kernel| == |s.queue| + |s.kernel| && s'.workers == s.workers && s'.port == s.port;
    hide Step;
  }

  lemma SupplyFalls(s: State, l: Label)
    requires Inv(s) && s.exiting && !s.port && Step(s, l).Some?
    ensures var s' := Step(s, l).value; s'.exiting && !s'.port && Supply(s') <= Supply(s)
    ensures !l.Work? || l.ch.ok ==> Supply(Step(s, l).value) == Supply(s)
  {
    hide Inv, StepWorker, StepMain, Supply;
    match l
    case Work(w, ch) => WorkerSupply(s, Step(s, l).value, w, ch);
    case MainStep(ch) => MainSupply(s, Step(s, l).value, ch);
    case _ =>
      SystemSupply(s, l);
      SystemRests(s, l);
  }

  /** Without a port the supply never rises, whoever moves. */
  lemma {:induction false} SupplyNeverRises(n: nat, h: History, k: nat, j: nat)
    requires Execution(n, h) && k <= j <= |h.labels| && h.states[k].exiting && !h.states[k].port
    ensures h.states[j].exiting && !h.states[j].port && Supply(h.states[j]) <= Supply(h.states[k])
  {
    hide Step, Inv, Initial, Supply;
    if j > k {
      SupplyNeverRises(n, h, k, j - 1);
      assert StepAt(h, j - 1);
      ExecutionKeepsInv(n, h, j - 1);
      SupplyFalls(h.states[j - 1], h.labels[j - 1]);
    }
  }

  lemma ReturnedHasSupply(s: State)
    requires AllReturned(s)
    ensures Supply(s) >= 0
  {
    SumZero(s.workers, StillToDequeue());
  }

  // ---- Enough supply brings everybody back

  /** Without a port every pending operation is a receive. */
  lemma PendingIsReceive(s: State, i: nat)
    requires Inv(s) && !s.port && i < |s.kernel|
    ensures s.kernel[i].op.RecvOp?
  {
    assert PendingOk(s, s.kernel[i]);
    KernelExclusive(s, i);
  }

  lemma SameChoice(s: State, w: nat)
    requires w < |s.workers| && !Accepting(s.workers[w]) && !s.workers[w].RcvPost?
    ensures StepWorker(s, w, FINE) == StepWorker(s, w, FAILING)
  {
    hide StepDequeue, StepCheck, DispatchTo, StepAccOption, StepAccCreate, StepAccList, StepAccMap, StepAccDeliver,
         StepAccRecv, StepAccSocket, StepAccPost, StepRcvCount, StepRcvFetch, StepRcvDeliver, StepDisc;
  }

  lemma ReceiveSucceeds(s: State, w: nat)
    requires w < |s.workers| && s.workers[w].RcvPost? && WorkerOk(s, s.workers[w])
    ensures StepWorker(s, w, FINE).Some?
  {
  }

  /** The call of a worker that can move at all can succeed. */
  lemma CanSucceed(s: State, w: nat)
    requires Inv(s) && !s.port && Step(s, Work(w, FAILING)).Some?
    ensures Step(s, Work(w, FINE)).Some?
  {
    hide Inv, StepWorker, WorkerOk, Accepting;
    WorkerFact(s, w);
    NobodyAccepts(s, w);
    if s.workers[w].RcvPost? {
      ReceiveSucceeds(s, w);
    } else {
      SameChoice(s, w);
    }
  }

  /** If everybody else waits at the empty queue, the supply is what is pending. */
  lemma OnlyPending(s: State, w: nat)
    requires s.queue == [] && Supply(s) >= 0 && w < |s.workers| && s.workers[w] == Idle
    requires forall v :: 0 <= v < |s.workers| ==> s.workers[v] == Idle || s.workers[v] == Returned
    ensures s.kernel != []
  {
    SumZero(s.workers, Rearms());
    SumAtLeast(s.workers, w, StillToDequeue());
  }

  /** A step that keeps the supply: of a worker whose call succeeds, or the end of a pending receive. */
  lemma HelpfulStep(s: State) returns (l: Label)
    requires Inv(s) && s.exiting && !s.port && Supply(s) >= 0 && !AllReturned(s)
    ensures Step(s, l).Some? && (if l.Work? then l.ch.ok else l == KernelRecvEnd(0, true))
  {
    hide Inv, Step, Supply;
    var w :| 0 <= w < |s.workers| && s.workers[w] != Returned;
    if v: nat :| v < |s.workers| && s.workers[v] != Returned && (s.workers[v] == Idle ==> s.queue != []) {
      var u := SomeoneMoves(s, v);
      CanSucceed(s, u);
      l := Work(u, FINE);
    } else {
      OnlyPending(s, w);
      PendingIsReceive(s, 0);
      EndsReceive(s);
      l := KernelRecvEnd(0, true);
    }
  }

  lemma EndsReceive(s: State)
    requires s.kernel != [] && s.kernel[0].op.RecvOp?
    ensures Step(s, KernelRecvEnd(0, true)).Some?
  {
  }

  lemma HelpfulEnds(s: State, l: Label)
    requires Step(s, l).Some? && s.exiting && (l.Work? || l == KernelRecvEnd(0, true))
    ensures var s' := Step(s, l).value;
      || Sum(s'.workers, Left()) < Sum(s.workers, Left())
      || (s'.workers == s.workers && |s'.kernel| < |s.kernel|)
  {
    hide StepWorker;
    if l.Work? {
      ExitingStep(s, l);
    }
  }

  lemma {:induction false} SupplyReturns(n: nat, h: History) returns (all: History)
    requires Execution(n, h) && Last(h).exiting && !Last(h).port && Supply(Last(h)) >= 0
    ensures Execution(n, all) && Continues(h, all) && AllReturned(Last(all))
    decreases Sum(Last(h).workers, Left()), |Last(h).kernel|
  {
    hide Step, Inv, Initial, Supply, AllReturned;
    all := h;
    if !AllReturned(Last(h)) {
      ExecutionKeepsInv(n, h, |h.labels|);
      var l := HelpfulStep(Last(h));
      var s := Step(Last(h), l).value;
      ExtendExecution(n, h, l, s);
      SupplyFalls(Last(h), l);
      HelpfulEnds(Last(h), l);
      all := SupplyReturns(n, Extended(h, l, s));
    }
  }

  /** With the port there the posting loop can be run to its end, and then the workers return. */
  lemma {:induction false} PortCanReturn(n: nat, h: History) returns (all: History)
    requires Execution(n, h) && Last(h).exiting && Last(h).port
    ensures Execution(n, all) && Continues(h, all) && AllReturned(Last(all))
    decreases if Last(h).main.Posting? then |Last(h).workers| - Last(h).main.i + 1 else 0
  {
    hide Inv, Initial, AllReturned;
    ExecutionKeepsInv(n, h, |h.labels|);
    StoppingThen(Last(h));
    if Last(h).main.Posting? {
      PostingMoves(Last(h));
      var s := Step(Last(h), MainStep(FINE)).value;
      hide StepMain;
      StoppingStep(Last(h), s, FINE);
      ExtendExecution(n, h, MainStep(FINE), s);
      all := PortCanReturn(n, Extended(h, MainStep(FINE), s));
    } else {
      hide Step;
      all := WorkersReturn(n, h, |h.labels|);
    }
  }

  lemma PostingMoves(s: State)
    requires s.main.Posting?
    ensures Step(s, MainStep(FINE)).Some?
  {
  }

  lemma StoppingThen(s: State)
    requires Inv(s) && s.exiting
    ensures StoppingPhase(s.main) && (s.main.Posting? ==> s.main.i <= |s.workers|)
  {
  }

  /** Some continuation of the execution, by anybody, ends with all workers returned. */
  ghost predicate CanReturn(n: nat, h: History) {
    exists all: History :: Execution(n, all) && Continues(h, all) && AllReturned(Last(all))
  }

  /** At any moment of shutdown: all workers may still return if and only if the port is there or the supply lasts. */
  lemma CanReturnExactly(n: nat, h: History)
    requires Execution(n, h) && Last(h).exiting
    ensures CanReturn(n, h) <==> Last(h).port || Supply(Last(h)) >= 0
  {
    hide Inv, Initial, Supply, AllReturned;
    if Last(h).port {
      var all := PortCanReturn(n, h);
    } else if Supply(Last(h)) >= 0 {
      var all := SupplyReturns(n, h);
    } else {
      forall all: History | Execution(n, all) && Continues(h, all) ensures !AllReturned(Last(all)) {
        SamePlace(h, all, |h.labels|);
        SupplyNeverRises(n, all, |h.labels|, |all.labels|);
        if AllReturned(Last(all)) {
          ReturnedHasSupply(Last(all));
        }
      }
    }
  }

  /**
   The exact condition of shutdown, without the port at any moment of it, and with or without the port after the
   posting loop: the workers return however the execution goes on if and only if the queue holds a packet for each
   of them that still has to dequeue one.
   */
  lemma MustReturnExactly(n: nat, h: History)
    requires Execution(n, h) && Settled(Last(h))
    ensures MustReturn(n, h) <==> EnoughPackets(Last(h))
  {
    hide Inv, Initial, EnoughPackets, WorkersStuck, AllReturned, MustReturn;
    if Last(h).port {
      PortMeansEnough(n, h);
      PortMustReturn(n, h);
    } else if EnoughPackets(Last(h)) {
      EnoughMustReturn(n, h);
    } else {
      NotEnough(n, h);
    }
  }

  lemma NotEnough(n: nat, h: History)
    requires Execution(n, h) && Last(h).exiting && !Last(h).port && !EnoughPackets(Last(h))
    ensures !MustReturn(n, h)
  {
    hide Inv, Initial, EnoughPackets, WorkersStuck, AllReturned;
    var all := RunOut(n, h, |h.labels|);
    NoPortOutcome(n, h, all);
    assert Continues(h, all);
  }

  // ---- How the port is lost

  lemma PortLostBy(s: State, l: Label)
    requires Inv(s) && Step(s, l).Some? && s.port && !Step(s, l).value.port
    ensures l.Work? && l.w < |Step(s, l).value.workers| && Step(s, l).value.workers[l.w] == Returned
  {
    hide Inv, StepWorker, StepMain, StepAccCreate, WorkerOk;
    match l
    case Work(w, ch) =>
      WorkerAdvances(s, Step(s, l).value, w, ch);
      WorkerFact(s, w);
      LosesPort(s, Step(s, l).value, w, ch);
    case MainStep(ch) => MainRests(s, Step(s, l).value, ch);
    case _ => SystemRests(s, l);
  }

  lemma LosesPort(s: State, s': State, w: nat, ch: Choice)
    requires w < |s.workers| && s.workers[w].AccCreate? && !ch.ok && StepWorker(s, w, ch) == Some(s')
    requires WorkerOk(s, s.workers[w])
    ensures w < |s'.workers| && s'.workers[w] == Returned
  {
  }

  /** Whoever loses the port returns: without a port some worker has returned already. */
  lemma {:induction false} PortLostReturned(n: nat, h: History, k: nat) returns (w: nat)
    requires Execution(n, h) && k <= |h.labels| && !h.states[k].port
    ensures w < |h.states[k].workers| && h.states[k].workers[w] == Returned
  {
    hide Step, Inv;
    assert k > 0;
    assert StepAt(h, k - 1);
    var s, l := h.states[k - 1], h.labels[k - 1];
    if s.port {
      ExecutionKeepsInv(n, h, k - 1);
      PortLostBy(s, l);
      w := l.w;
    } else {
      w := PortLostReturned(n, h, k - 1);
      StepRests(s, l);
    }
  }

  /** So a server of one worker always drains: with the port lost, its only worker has returned. */
  lemma OneWorkerReturns(h: History)
    requires Execution(1, h) && Settled(Last(h))
    ensures MustReturn(1, h)
  {
    hide Inv, Initial, MustReturn;
    if !Last(h).port {
      var w := PortLostReturned(1, h, |h.labels|);
      SameWorkers(1, h, |h.labels|);
      SumZero(Last(h).workers, StillToDequeue());
    } else {
      PortMeansEnough(1, h);
    }
    MustReturnExactly(1, h);
  }
}
