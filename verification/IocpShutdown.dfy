/**
 Shutdown: the posting loop of `exiting` sends one packet for every worker, and that is enough for all of them
 to return.
 */
module IocpShutdown {
  import opened Prelude
  import opened IocpModel
  import opened IocpInvariant
  import opened IocpOwnership
  import opened IocpTableSteps
  import opened IocpSystemSteps
  import opened IocpProgress
  import opened IocpAccept

  function IsExit(): Packet -> nat {
    (p: Packet) => if p.ExitPacket? then 1 else 0
  }

  function IsGone(): Worker -> nat {
    (wk: Worker) => if Gone(wk) then 1 else 0
  }

  function StillToDequeue(): Worker -> nat {
    (wk: Worker) => if Gone(wk) then 0 else 1
  }

  function Left(): Worker -> nat {
    (wk: Worker) => Remaining(wk)
  }

  function Each(): Worker -> nat {
    (wk: Worker) => 1
  }

  /** Exit packets in the queue, and workers that need none any more. */
  function Exits(s: State): nat {
    Sum(s.queue, IsExit()) + Sum(s.workers, IsGone())
  }

  /** How many times the posting loop has been through. */
  function Posted(s: State): nat {
    match s.main
    case Posting(i) => i
    case Closing => |s.workers|
    case Stopped => |s.workers|
    case _ => 0
  }

  // ---- Packets for everyone

  lemma WorkerExits(s: State, s': State, w: nat, ch: Choice)
    requires Advances(s, s', w, ch) && s.exiting
    ensures Exits(s') >= Exits(s)
  {
    SumUpdate(s.workers, w, s'.workers[w], IsGone());
  }

  lemma {:induction false} SumPrefix(s: seq<Packet>, t: seq<Packet>)
    requires |s| <= |t| && t[..|s|] == s
    ensures Sum(t, IsExit()) >= Sum(s, IsExit())
  {
    assert t == s + t[|s|..];
    SumConcat(s, t[|s|..], IsExit());
  }

  /**
   While the server is exiting: exit packets and workers that need none are never lost, a worker dequeues at most
   one more packet, and every step of a worker leaves less to do.
   */
  lemma ExitingStep(s: State, l: Label)
    requires Step(s, l).Some? && s.exiting
    ensures var s' := Step(s, l).value;
      && |s'.workers| == |s.workers| && s'.exiting
      && Exits(s') >= Exits(s)
      && Sum(s'.workers, Left()) + (if l.Work? then 1 else 0) <= Sum(s.workers, Left())
      && forall w: nat :: w < |s.workers| ==>
           (if TakesPacket(s, l, w) then 1 else 0) + StillToDequeue()(s'.workers[w]) <= StillToDequeue()(s.workers[w])
  {
    hide StepWorker, StepMain, Exits;
    var s' := Step(s, l).value;
    match l
    case Work(w, ch) =>
      WorkerAdvances(s, s', w, ch);
      WorkerExits(s, s', w, ch);
      SumUpdate(s.workers, w, s'.workers[w], Left());
    case MainStep(ch) =>
      MainRests(s, s', ch);
      RestExits(s, s');
    case _ =>
      SystemRests(s, l);
      RestExits(s, s');
  }

  lemma RestExits(s: State, s': State)
    requires WorkersRest(s, s')
    ensures Exits(s') >= Exits(s)
  {
    SumPrefix(s.queue, s'.queue);
  }

  /** The posting loop puts one exit packet into the queue each time round, as long as there is a port. */
  lemma MainPosts(s: State, s': State, ch: Choice)
    requires StepMain(s, ch) == Some(s') && MainPhaseOk(s) && s'.port && (s.exiting ==> Exits(s) >= Posted(s))
    ensures s'.exiting ==> Exits(s') >= Posted(s')
  {
    MainRests(s, s', ch);
    RestExits(s, s');
    if s.main.Posting? {
      PostOne(s, s', ch);
    }
  }

  lemma PostOne(s: State, s': State, ch: Choice)
    requires s.main.Posting? && StepMain(s, ch) == Some(s') && s.port && s.main.i <= |s.workers|
    ensures Posted(s') <= Posted(s) + 1 && Exits(s') - Exits(s) == Posted(s') - Posted(s)
  {
    if s.main.i < |s.workers| {
      assert s' == s.(main := Posting(s.main.i + 1), queue := s.queue + [ExitPacket]);
      hide StepMain;
      SumConcat(s.queue, [ExitPacket], IsExit());
      SumOne(ExitPacket, IsExit());
    }
  }

  ghost predicate ExitsCover(s: State) {
    s.exiting && s.port ==> Exits(s) >= Posted(s)
  }

  lemma CoverStep(s: State, l: Label)
    requires Inv(s) && Step(s, l).Some? && ExitsCover(s)
    ensures ExitsCover(Step(s, l).value)
  {
    hide StepWorker, StepMain, Exits, Owned, Holders;
    var s' := Step(s, l).value;
    if s.exiting {
      ExitingStep(s, l);
    }
    match l
    case Work(w, ch) => WorkerAdvances(s, s', w, ch);
    case MainStep(ch) =>
      MainRests(s, s', ch);
      if s'.port {
        MainPosts(s, s', ch);
      }
    case _ => SystemRests(s, l);
  }

  lemma InitialCovers(n: nat)
    ensures ExitsCover(Initial(n))
  {
  }

  lemma {:induction false} ExecutionCovers(n: nat, h: History, k: nat)
    requires Execution(n, h) && k <= |h.labels|
    ensures ExitsCover(h.states[k])
  {
    hide Step, Inv, ExitsCover, Initial;
    if k == 0 {
      InitialCovers(n);
    } else {
      assert StepAt(h, k - 1);
      ExecutionCovers(n, h, k - 1);
      ExecutionKeepsInv(n, h, k - 1);
      CoverStep(h.states[k - 1], h.labels[k - 1]);
    }
  }

  // ---- From the end of the posting loop on

  /** After the first `k` steps the posting loop has ended, with the port still there. */
  ghost predicate PostedAll(n: nat, h: History, k: nat) {
    && Execution(n, h) && k <= |h.labels|
    && (h.states[k].main == Closing || h.states[k].main == Stopped)
    && h.states[k].port
  }

  lemma {:induction false} SameWorkers(n: nat, h: History, k: nat)
    requires Execution(n, h) && k <= |h.labels|
    ensures |h.states[k].workers| == n
  {
    hide Step;
    if k > 0 {
      SameWorkers(n, h, k - 1);
      assert StepAt(h, k - 1);
      StepRests(h.states[k - 1], h.labels[k - 1]);
    }
  }

  lemma ExitingThen(s: State)
    requires Inv(s) && (s.main == Closing || s.main == Stopped)
    ensures s.exiting
  {
  }

  lemma {:induction false} ExitsAfter(n: nat, h: History, k: nat, j: nat)
    requires PostedAll(n, h, k) && k <= j <= |h.labels|
    ensures h.states[j].exiting && Exits(h.states[j]) >= n
  {
    hide Step, Inv, Exits;
    if j == k {
      ExecutionCovers(n, h, k);
      ExecutionKeepsInv(n, h, k);
      SameWorkers(n, h, k);
      ExitingThen(h.states[k]);
    } else {
      ExitsAfter(n, h, k, j - 1);
      assert StepAt(h, j - 1);
      ExitingStep(h.states[j - 1], h.labels[j - 1]);
    }
  }

  /**
   Once the posting loop has ended: the exit packets in the queue never number fewer than the workers still to
   dequeue one.
   */
  lemma ExitPacketsSuffice(n: nat, h: History, k: nat, j: nat)
    requires PostedAll(n, h, k) && k <= j <= |h.labels|
    ensures Sum(h.states[j].queue, IsExit()) >= Sum(h.states[j].workers, StillToDequeue())
  {
    var s := h.states[j];
    ExitsAfter(n, h, k, j);
    SameWorkers(n, h, j);
    SumSplit(s.workers, StillToDequeue(), IsGone(), Each());
    SumOnes(s.workers);
  }

  lemma {:induction false} SumOnes(s: seq<Worker>)
    ensures Sum(s, Each()) == |s|
  {
    if s != [] {
      SumOnes(s[1..]);
    }
  }

  // ---- Each worker dequeues at most once more, and takes few steps altogether

  /** How often worker `w` dequeues a packet in steps `k` to `j`. */
  function Dequeues(h: History, k: nat, j: nat, w: nat): nat
    requires k <= j <= |h.labels| < |h.states|
  {
    if j == k then 0
    else Dequeues(h, k, j - 1, w) + if TakesPacket(h.states[j - 1], h.labels[j - 1], w) then 1 else 0
  }

  predicate TakesPacket(s: State, l: Label, w: nat) {
    l.Work? && l.w == w && w < |s.workers| && s.workers[w] == Idle
  }

  /** From any point of a run at which the server is exiting, every worker dequeues at most one more packet. */
  lemma {:induction false} DequeuesOnce(n: nat, h: History, k: nat, j: nat, w: nat)
    requires Execution(n, h) && k <= j <= |h.labels| && h.states[k].exiting && w < n
    ensures h.states[j].exiting && |h.states[j].workers| == n
    ensures Dequeues(h, k, j, w) + StillToDequeue()(h.states[j].workers[w]) <= 1
  {
    hide Step;
    SameWorkers(n, h, j);
    if j > k {
      DequeuesOnce(n, h, k, j - 1, w);
      assert StepAt(h, j - 1);
      ExitingStep(h.states[j - 1], h.labels[j - 1]);
    }
  }

  /** How many of the steps `k` to `j` are taken by workers. */
  function WorkSteps(h: History, k: nat, j: nat): nat
    requires k <= j <= |h.labels|
  {
    if j == k then 0 else WorkSteps(h, k, j - 1) + if h.labels[j - 1].Work? then 1 else 0
  }

  /** From any point at which the server is exiting, n workers take at most 19n more steps in total. */
  lemma {:induction false} WorkEnds(n: nat, h: History, k: nat, j: nat)
    requires Execution(n, h) && k <= j <= |h.labels| && h.states[k].exiting
    ensures h.states[j].exiting
    ensures WorkSteps(h, k, j) + Sum(h.states[j].workers, Left()) <= 19 * n
  {
    hide Step, Initial;
    if j == k {
      SameWorkers(n, h, k);
      SumBound(h.states[k].workers, Left(), 19);
    } else {
      WorkEnds(n, h, k, j - 1);
      assert StepAt(h, j - 1);
      ExitingStep(h.states[j - 1], h.labels[j - 1]);
    }
  }

  // ---- As long as a worker has not returned, some worker can move

  /** A choice with which the calls of the worker fail: enough for a worker that waits for nothing. */
  const FAILING := Choice(false, 0, 0)

  lemma DisconnectingMoves(s: State, w: nat, stage: Stage, c: CtxId, back: Option<CtxId>)
    requires w < |s.workers| && s.workers[w] == Disc(stage, c, back) && WorkerOk(s, s.workers[w])
    requires stage == Lock ==> s.locker == None
    ensures StepDisc(s, w, stage, c, back).Some?
  {
  }

  lemma AcceptingMoves(s: State, w: nat)
    requires w < |s.workers| && WorkerOk(s, s.workers[w]) && Accepting(s.workers[w]) && PeersOk(s)
    requires ObjsBound(s, s.workers[w])
    requires s.workers[w].AccCreate? ==> s.locker == None
    ensures StepWorker(s, w, FAILING).Some?
  {
  }

  /** The connection object a worker is about to call back exists. */
  ghost predicate ObjsBound(s: State, wk: Worker) {
    (wk.AccDeliver? || wk.RcvDeliver?) ==> wk.k < |s.objs|
  }

  lemma CallbackExists(s: State, wk: Worker)
    requires WorkerOk(s, wk) && ConnsOk(s)
    ensures ObjsBound(s, wk)
  {
  }

  lemma ReceivingMoves(s: State, w: nat)
    requires w < |s.workers| && WorkerOk(s, s.workers[w]) && Receiving(s.workers[w]) && ObjsBound(s, s.workers[w])
    ensures StepWorker(s, w, FAILING).Some?
  {
  }

  lemma WorkerMovesOn(s: State, w: nat)
    requires w < |s.workers| && WorkerOk(s, s.workers[w]) && Tables(s) && s.workers[w] != Returned
    requires s.workers[w] == Idle ==> s.queue != []
    requires NeedsSection(s.workers[w]) ==> s.locker == None
    ensures Step(s, Work(w, FAILING)).Some?
  {
    CallbackExists(s, s.workers[w]);
    hide ListenerOk, KeysOk, ConnsOk, ObjsOk, ListOk, LockerOk, MainPhaseOk;
    if Accepting(s.workers[w]) {
      hide StepWorker, WorkerOk;
      AcceptingMoves(s, w);
    } else if Receiving(s.workers[w]) {
      hide StepWorker, WorkerOk;
      ReceivingMoves(s, w);
    } else if s.workers[w].Disc? {
      hide StepDisc, WorkerOk;
      DisconnectingMoves(s, w, s.workers[w].stage, s.workers[w].c, s.workers[w].back);
    } else {
      LoopMoves(s, w);
    }
  }

  lemma LoopMoves(s: State, w: nat)
    requires w < |s.workers| && WorkerOk(s, s.workers[w]) && s.workers[w] != Returned
    requires !Accepting(s.workers[w]) && !Receiving(s.workers[w]) && !s.workers[w].Disc?
    requires s.workers[w] == Idle ==> s.queue != []
    ensures StepWorker(s, w, FAILING).Some?
  {
    hide StepAccOption, StepAccCreate, StepAccList, StepAccMap, StepAccDeliver, StepAccRecv, StepAccSocket, StepAccPost,
         StepRcvCount, StepRcvFetch, StepRcvDeliver, StepRcvPost, StepDisc;
  }

  /** A worker that has not returned can move, or the owner of the critical section can. */
  lemma SomeoneMoves(s: State, w: nat) returns (v: nat)
    requires Inv(s) && w < |s.workers| && s.workers[w] != Returned
    requires s.workers[w] == Idle ==> s.queue != []
    ensures Step(s, Work(v, FAILING)).Some?
  {
    hide Inv, Step, WorkerOk;
    WorkerFact(s, w);
    v := w;
    if NeedsSection(s.workers[w]) && s.locker.Some? {
      v := SectionOwner(s);
      WorkerFact(s, v);
    }
    hide Tables;
    WorkerMovesOn(s, v);
  }

  lemma SectionOwner(s: State) returns (v: nat)
    requires LockerOk(s) && s.locker.Some?
    ensures v < |s.workers| && Inside(s.workers[v])
  {
    v := s.locker.value;
  }

  ghost predicate AllReturned(s: State) {
    forall w :: 0 <= w < |s.workers| ==> s.workers[w] == Returned
  }

  /** No worker can take a step, whatever the system decides. */
  ghost predicate WorkersStuck(s: State) {
    forall w: nat, ch: Choice :: Step(s, Work(w, ch)).None?
  }

  lemma IdleHasPacket(s: State, w: nat)
    requires Sum(s.queue, IsExit()) >= Sum(s.workers, StillToDequeue()) && w < |s.workers| && s.workers[w] == Idle
    ensures s.queue != []
  {
    SumAtLeast(s.workers, w, StillToDequeue());
  }

  lemma ReturnedIsStuck(s: State)
    requires AllReturned(s)
    ensures WorkersStuck(s)
  {
  }

  /**
   Shutdown drains. Once the posting loop has ended with the port still there, in every later state: the
   workers are stuck if and only if all of them have returned, every worker has dequeued at most once
   since, and all workers together have taken at most 19 steps each.
   */
  lemma ShutdownDrains(n: nat, h: History, k: nat, j: nat)
    requires PostedAll(n, h, k) && k <= j <= |h.labels|
    ensures WorkersStuck(h.states[j]) <==> AllReturned(h.states[j])
    ensures WorkSteps(h, k, j) <= 19 * n
    ensures forall w: nat :: w < n ==> Dequeues(h, k, j, w) <= 1
  {
    hide Step;
    ExitsAfter(n, h, k, k);
    WorkEnds(n, h, k, j);
    forall w: nat | w < n ensures Dequeues(h, k, j, w) <= 1 {
      DequeuesOnce(n, h, k, j, w);
    }
    if AllReturned(h.states[j]) {
      ReturnedIsStuck(h.states[j]);
    } else {
      var w :| 0 <= w < |h.states[j].workers| && h.states[j].workers[w] != Returned;
      var v := NotStuck(n, h, k, j, w);
    }
  }

  lemma NotStuck(n: nat, h: History, k: nat, j: nat, w: nat) returns (v: nat)
    requires PostedAll(n, h, k) && k <= j <= |h.labels|
    requires w < |h.states[j].workers| && h.states[j].workers[w] != Returned
    ensures Step(h.states[j], Work(v, FAILING)).Some?
  {
    hide Step, Inv;
    ExecutionKeepsInv(n, h, j);
    ExitPacketsSuffice(n, h, k, j);
    if h.states[j].workers[w] == Idle {
      IdleHasPacket(h.states[j], w);
    }
    v := SomeoneMoves(h.states[j], w);
  }

  /** Hence the workers alone can always bring every execution to the state in which all of them have returned. */
  lemma {:induction false} WorkersReturn(n: nat, h: History, k: nat) returns (all: History)
    requires PostedAll(n, h, k)
    ensures Execution(n, all) && h.states <= all.states && h.labels <= all.labels && AllReturned(Last(all))
    ensures forall j :: |h.labels| <= j < |all.labels| ==> all.labels[j].Work?
    decreases 19 * n - WorkSteps(h, k, |h.labels|)
  {
    hide Step, Initial;
    all := h;
    if !AllReturned(Last(h)) {
      var w :| 0 <= w < |Last(h).workers| && Last(h).workers[w] != Returned;
      var v := NotStuck(n, h, k, |h.labels|, w);
      var l := Work(v, FAILING);
      var longer := Extended(h, l, Step(Last(h), l).value);
      ExtendExecution(n, h, l, Step(Last(h), l).value);
      WorkStepsPrefix(h, longer, k, |h.labels|);
      ShutdownDrains(n, longer, k, |longer.labels|);
      all := WorkersReturn(n, longer, k);
    }
  }

  lemma {:induction false} WorkStepsPrefix(h: History, longer: History, k: nat, j: nat)
    requires k <= j <= |h.labels| && h.labels <= longer.labels
    ensures WorkSteps(longer, k, j) == WorkSteps(h, k, j)
  {
    if j > k {
      WorkStepsPrefix(h, longer, k, j - 1);
    }
  }

  // ---- Without the port nobody is told

  /** The server is exiting without a port, and nothing is queued or pending any more. */
  ghost predicate Deaf(s: State) {
    && s.exiting && !s.port && StoppingPhase(s.main)
    && s.queue == [] && s.kernel == []
    && forall w :: 0 <= w < |s.workers| ==> s.workers[w] == Idle || s.workers[w] == Returned
  }

  lemma DeafStep(s: State, l: Label)
    requires Deaf(s) && Step(s, l).Some?
    ensures Deaf(Step(s, l).value) && Step(s, l).value.workers == s.workers
  {
    match l
    case Work(_, _) =>
    case MainStep(ch) => DeafMain(s, ch);
    case PeerSend(_, _) =>
  }

  lemma DeafMain(s: State, ch: Choice)
    requires Deaf(s) && StepMain(s, ch).Some?
    ensures Deaf(StepMain(s, ch).value) && StepMain(s, ch).value.workers == s.workers
  {
    if s.main.Posting? {
      assert s.queue + [] == s.queue;
    }
  }

  /** A deaf server stays deaf: its idle workers wait for ever. */
  lemma {:induction false} DeafForever(n: nat, h: History, k: nat, j: nat)
    requires Execution(n, h) && k <= j <= |h.labels| && Deaf(h.states[k])
    ensures Deaf(h.states[j]) && h.states[j].workers == h.states[k].workers
  {
    hide Step, Deaf;
    if j > k {
      DeafForever(n, h, k, j - 1);
      assert StepAt(h, j - 1);
      DeafStep(h.states[j - 1], h.labels[j - 1]);
    }
  }

  // ---- A run that ends deaf: CreateIoCompletionPort fails for the first connection, and leaves null in iocp_handle_

  /** A server of two workers whose listening context 10 has sockets 1 and 2. */
  function TwoWorkers(port: bool, exiting: bool, main: Main, first: Worker, peers: seq<Peer>,
                      kernel: seq<Pending>, queue: seq<Packet>, dropped: seq<CtxId>): State {
    State(true, exiting, port, None, Some(10), [], map[],
          map[10 := NewCtx(1, IOAccept).(accepted := Some(2))], [], main, [first, Idle],
          {1, 2}, map[1 := 10], if peers == [] then map[] else map[2 := 0], peers, kernel, queue, dropped)
  }

  lemma CreateListener(s1: State, s2: State)
    requires s1 == Initial(2).(running := true, main := Listening)
    requires s2 == SetCtx(s1, 10, NewCtx(1, IOAccept))
                   .(open := {1}, keyOf := map[1 := 10], listener := Some(10), main := Arming)
    ensures Step(s1, MainStep(Choice(true, 1, 10))) == Some(s2)
  {
    assert s1.open + {1} == {1};
    assert s1.keyOf[1 := 10] == map[1 := 10];
  }

  lemma ArmListener(s2: State)
    requires s2 == SetCtx(Initial(2), 10, NewCtx(1, IOAccept))
                   .(running := true, open := {1}, keyOf := map[1 := 10], listener := Some(10), main := Arming)
    ensures Step(s2, MainStep(Choice(true, 2, 0))) == Some(TwoWorkers(true, false, ArmPost, Idle, [], [], [], []))
  {
    assert s2.open + {2} == {1, 2};
    assert s2.ctxs[10 := NewCtx(1, IOAccept).(accepted := Some(2))]
        == map[10 := NewCtx(1, IOAccept).(accepted := Some(2))];
    assert s2.workers == [Idle, Idle];
  }

  lemma PostFirstAccept()
    ensures Step(TwoWorkers(true, false, ArmPost, Idle, [], [], [], []), MainStep(FINE))
         == Some(TwoWorkers(true, false, Serving, Idle, [], [Pending(10, 10, AcceptOp(2))], [], []))
  {
    var p := Pending(10, 10, AcceptOp(2));
    assert [] + [p] == [p];
  }

  /** Start: the listening context, its first accept socket, AcceptEx. */
  lemma StartUp() returns (h: History)
    ensures Execution(2, h)
    ensures Last(h) == TwoWorkers(true, false, Serving, Idle, [], [Pending(10, 10, AcceptOp(2))], [], [])
  {
    var s1 := Initial(2).(running := true, main := Listening);
    var s2 := SetCtx(s1, 10, NewCtx(1, IOAccept))
              .(open := {1}, keyOf := map[1 := 10], listener := Some(10), main := Arming);
    assert Step(Initial(2), MainStep(FINE)) == Some(s1);
    CreateListener(s1, s2);
    ArmListener(s2);
    PostFirstAccept();
    h := History([Initial(2)], []);
    hide Step, TwoWorkers, Initial, Execution;
    h := Append(h, MainStep(FINE));
    h := Append(h, MainStep(Choice(true, 1, 10)));
    h := Append(h, MainStep(Choice(true, 2, 0)));
    h := Append(h, MainStep(FINE));
  }

  /** One more step of an execution. */
  lemma Append(h: History, l: Label) returns (h': History)
    requires Execution(2, h) && Step(Last(h), l).Some?
    ensures Execution(2, h') && Last(h') == Step(Last(h), l).value
  {
    hide Step;
    h' := Extended(h, l, Step(Last(h), l).value);
    ExtendExecution(2, h, l, Step(Last(h), l).value);
  }

  lemma ClientConnects()
    ensures Step(TwoWorkers(true, false, Serving, Idle, [], [Pending(10, 10, AcceptOp(2))], [], []),
                 KernelAccept(0, [], 0))
         == Some(TwoWorkers(true, false, Serving, Idle, [Peer([], 0, None)], [], [Completion(10, 10, true, 0)], []))
  {
    var x := NewCtx(1, IOAccept).(accepted := Some(2));
    var p := Completion(10, 10, true, 0);
    assert [] + x.buffer[0..] == x.buffer;
    assert [] + [p] == [p];
    assert map[10 := x][10 := x] == map[10 := x];
    assert RemoveAt([Pending(10, 10, AcceptOp(2))], 0) == [];
    assert map[][2 := 0] == map[2 := 0];
    var none: seq<Peer> := [];
    assert none + [Peer([], 0, None)] == [Peer([], 0, None)];
  }

  /** The first worker dequeues the completion, gets as far as CreateIoCompletionPort, and gives up when it fails. */
  lemma AcceptGivesUp(s: State, p: Packet)
    requires s == TwoWorkers(true, false, Serving, Idle, [Peer([], 0, None)], [], [p], [])
    requires p == Completion(10, 10, true, 0)
    ensures Step(s, Work(0, FINE)) == Some(s.(workers := [Dequeued(p), Idle], queue := []))
    ensures Step(s.(workers := [Dequeued(p), Idle], queue := []), Work(0, FINE))
         == Some(s.(workers := [Dispatching(p), Idle], queue := []))
    ensures Step(s.(workers := [Dispatching(p), Idle], queue := []), Work(0, FINE))
         == Some(s.(workers := [AccOption(10, 0), Idle], queue := []))
  {
    assert s.queue[1..] == [];
    assert s.workers[0 := Dequeued(p)] == [Dequeued(p), Idle];
    assert [Dequeued(p), Idle][0 := Dispatching(p)] == [Dispatching(p), Idle];
    assert [Dispatching(p), Idle][0 := AccOption(10, 0)] == [AccOption(10, 0), Idle];
  }

  lemma AcceptFailsThen(s: State)
    requires s == TwoWorkers(true, false, Serving, AccOption(10, 0), [Peer([], 0, None)], [], [], [])
    ensures Step(s, Work(0, FINE)) == Some(s.(workers := [AccCreate(10, 0), Idle]))
    ensures Step(s.(workers := [AccCreate(10, 0), Idle]), Work(0, FAILING))
         == Some(s.(workers := [Returned, Idle], dropped := [10], port := false))
  {
    assert s.workers[0 := AccCreate(10, 0)] == [AccCreate(10, 0), Idle];
    assert [AccCreate(10, 0), Idle][0 := Returned] == [Returned, Idle];
    assert [] + [10] == [10];
  }

  /** The state of those two workers once the first accept has failed. */
  function AcceptGone(): State {
    TwoWorkers(true, false, Serving, Returned, [Peer([], 0, None)], [], [], []).(dropped := [10], port := false)
  }

  /** A failed accept: CreateIoCompletionPort fails for the first connection, and no accept is under way any more. */
  lemma AcceptLost() returns (h: History)
    ensures Execution(2, h) && Last(h) == AcceptGone() && !Last(h).exiting && Last(h).listener.Some?
    ensures AcceptsUnderWay(Last(h)) == 0 && !AcceptsSucceed(h, |h.labels|)
  {
    var p := Completion(10, 10, true, 0);
    var s := TwoWorkers(true, false, Serving, Idle, [Peer([], 0, None)], [], [p], []);
    var t := TwoWorkers(true, false, Serving, AccOption(10, 0), [Peer([], 0, None)], [], [], []);
    assert t == s.(workers := [AccOption(10, 0), Idle], queue := []);
    assert AcceptGone() == t.(workers := [Returned, Idle], dropped := [10], port := false);
    h := StartUp();
    ClientConnects();
    AcceptGivesUp(s, p);
    AcceptFailsThen(t);
    hide Step, TwoWorkers, Initial, Execution, Inv;
    h := Append(h, KernelAccept(0, [], 0));
    h := Append(h, Work(0, FINE));
    h := Append(h, Work(0, FINE));
    h := Append(h, Work(0, FINE));
    h := Append(h, Work(0, FINE));
    h := Append(h, Work(0, FAILING));
    NothingUnderWay(h);
  }

  lemma NothingUnderWay(h: History)
    requires Execution(2, h) && Last(h) == AcceptGone()
    ensures !Last(h).exiting && Last(h).listener.Some?
    ensures AcceptsUnderWay(Last(h)) == 0 && !AcceptsSucceed(h, |h.labels|)
  {
    hide Inv;
    ExecutionKeepsInv(2, h, |h.labels|);
    OneOrDropped(Last(h));
    AcceptRearmed(2, h, |h.labels|);
  }

  /**
   The failing run, with two workers: CreateIoCompletionPort fails for the first connection, which leaves
   null in iocp_handle_; Stop then posts no packet, and the second worker waits for ever.
   */
  lemma StopWithoutPort() returns (h: History)
    ensures Execution(2, h) && Deaf(Last(h)) && |Last(h).workers| == 2 && Last(h).workers[1] == Idle
    ensures forall longer: History :: Execution(2, longer) && h.states <= longer.states && h.labels <= longer.labels ==>
      Last(longer).workers == Last(h).workers
  {
    h := AcceptLost();
    var u := AcceptGone().(exiting := true, main := Posting(0));
    assert Step(AcceptGone(), MainStep(FINE)) == Some(u) && Deaf(u);
    hide Step, Deaf, Execution, AcceptGone;
    h := Append(h, MainStep(FINE));
    assert Last(h) == u;
    DeafAfterwards(h);
  }

  lemma DeafAfterwards(h: History)
    requires Execution(2, h) && Deaf(Last(h))
    ensures forall longer: History :: Execution(2, longer) && h.states <= longer.states && h.labels <= longer.labels ==>
      Last(longer).workers == Last(h).workers
  {
    forall longer: History | Execution(2, longer) && h.states <= longer.states && h.labels <= longer.labels
      ensures Last(longer).workers == Last(h).workers
    {
      assert longer.states[|h.labels|] == Last(h);
      DeafForever(2, longer, |h.labels|, |longer.labels|);
    }
  }
}
