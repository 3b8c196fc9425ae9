/**
 The condition-variable branch of the blocking queue (Windows Vista and later): waiting is
 SleepConditionVariableCS, which releases the critical section and falls asleep in one step and
 re-enters the section before it returns; waking is WakeConditionVariable, which releases one
 sleeper, if there is one.
 */
module CondVarQueue {
  import opened Prelude
  import opened QueueModel

  function AsleepOn<T>(cond: Cond): Call<T> -> nat {
    (c: Call<T>) => if c.phase == Asleep && WaitsOn(c.op) == cond then 1 else 0
  }

  function Sleepers<T>(s: State<T>, cond: Cond): nat {
    Sum(s.calls, AsleepOn(cond))
  }

  function Step<T>(s: State<T>, l: Label): Option<State<T>> {
    match l
    case Go(i) =>
      if i >= |s.calls| then None
      else (
        var c := s.calls[i];
        match c.phase
        case Start => Enter(s, i, Test)
        case Test => if Blocked(s, c.op) then Release(s, i, Asleep) else Some(At(s, i, Transfer))
        case Woken => Enter(s, i, Test)
        case TimedOut => Enter(s, i, Leave(false))
        case Transfer => Move(s, i)
        case Wake => if Sleepers(s, Wakes(c.op)) > 0 then None else Some(At(s, i, Leave(true)))
        case Leave(ok) => Release(s, i, Done(ok))
        case _ => None
      )
    case Signal(i, j) =>
      if i < |s.calls| && j < |s.calls| && s.calls[i].phase == Wake
         && s.calls[j].phase == Asleep && WaitsOn(s.calls[j].op) == Wakes(s.calls[i].op)
      then Some(At(At(s, j, Woken), i, Leave(true)))
      else None
    case Timeout(i) =>
      if i < |s.calls| && s.calls[i].phase == Asleep && !s.calls[i].infinite
      then Some(At(s, i, TimedOut))
      else None
    case Spurious(i) =>
      if i < |s.calls| && s.calls[i].phase == Asleep then Some(At(s, i, Woken)) else None
    case WaitFails(_) => None
  }

  /** The state after schedule `ls`, or None if some label of it is not possible. */
  function Run<T>(s: State<T>, ls: seq<Label>): Option<State<T>> {
    if ls == [] then Some(s)
    else
      match Run(s, ls[..|ls| - 1])
      case None => None
      case Some(t) => Step(t, ls[|ls| - 1])
  }

  lemma RunSnoc<T>(s: State<T>, ls: seq<Label>, l: Label)
    requires Run(s, ls).Some?
    ensures Run(s, ls + [l]) == Step(Run(s, ls).value, l)
  {
    assert (ls + [l])[..|ls|] == ls;
  }

  lemma {:induction false} RunConcat<T>(s: State<T>, a: seq<Label>, b: seq<Label>)
    requires Run(s, a).Some?
    ensures Run(s, a + b) == Run(Run(s, a).value, b)
  {
    if b == [] {
      assert a + b == a;
    } else {
      assert (a + b)[..|a + b| - 1] == a + b[..|b| - 1];
      RunConcat(s, a, b[..|b| - 1]);
    }
  }

  // ---- Lock discipline, capacity and FIFO refinement in every run

  ghost predicate Safe<T>(s: State<T>, q0: seq<T>) {
    && Disciplined(s)
    && Bounded(s)
    && Linearized(s, q0)
    && OwnPhases(s)
  }

  /** A step touches the stepping call, and the woken one if it is a signal; nobody else. */
  lemma StepShape<T>(s: State<T>, l: Label)
    requires Step(s, l).Some?
    ensures l.i < |s.calls|
    ensures var s' := Step(s, l).value;
      && s'.maxSize == s.maxSize
      && |s'.calls| == |s.calls|
      && (!l.Signal? ==> s'.calls == s.calls[l.i := s'.calls[l.i]])
      && (forall k :: 0 <= k < |s.calls| && k != l.i && !(l.Signal? && k == l.j) ==> s'.calls[k] == s.calls[k])
      && (forall k :: 0 <= k < |s.calls| ==>
           s'.calls[k].op == s.calls[k].op && s'.calls[k].infinite == s.calls[k].infinite)
  {
  }

  lemma DisciplineStep<T>(s: State<T>, l: Label)
    requires Disciplined(s) && Step(s, l).Some?
    ensures Disciplined(Step(s, l).value)
  {
    StepShape(s, l);
  }

  lemma BoundedStep<T>(s: State<T>, l: Label)
    requires Disciplined(s) && Bounded(s) && Step(s, l).Some?
    ensures Bounded(Step(s, l).value)
  {
    StepShape(s, l);
  }

  /** A step other than a transfer leaves the deque and the log alone and moves no call past its transfer. */
  lemma QuietShape<T>(s: State<T>, l: Label)
    requires Step(s, l).Some? && !(l.Go? && s.calls[l.i].phase == Transfer)
    ensures var s' := Step(s, l).value;
      && s'.q == s.q && s'.log == s.log && s'.maxSize == s.maxSize && |s'.calls| == |s.calls|
      && forall k :: 0 <= k < |s.calls| ==>
           && s'.calls[k].op == s.calls[k].op
           && s'.calls[k].got == s.calls[k].got
           && Moved(s'.calls[k].phase) == Moved(s.calls[k].phase)
  {
  }

  lemma LinearizedStep<T>(s: State<T>, l: Label, q0: seq<T>)
    requires Bounded(s) && Linearized(s, q0) && Step(s, l).Some?
    ensures Linearized(Step(s, l).value, q0)
  {
    if l.Go? && s.calls[l.i].phase == Transfer {
      LinearizedMove(s, l.i, q0);
    } else {
      QuietShape(s, l);
      LinearizedFrame(s, Step(s, l).value, q0);
    }
  }

  /** The phases of the event branch never occur. */
  ghost predicate OwnPhases<T>(s: State<T>) {
    forall i :: 0 <= i < |s.calls| ==> s.calls[i].phase != Unlock && s.calls[i].phase != Waiting
  }

  lemma OwnPhasesStep<T>(s: State<T>, l: Label)
    requires OwnPhases(s) && Step(s, l).Some?
    ensures OwnPhases(Step(s, l).value)
  {
  }

  lemma SafeStep<T>(s: State<T>, l: Label, q0: seq<T>)
    requires Safe(s, q0) && Step(s, l).Some?
    ensures Safe(Step(s, l).value, q0)
  {
    hide Step, Disciplined, Bounded, Linearized, OwnPhases;
    DisciplineStep(s, l);
    BoundedStep(s, l);
    LinearizedStep(s, l, q0);
    OwnPhasesStep(s, l);
  }

  lemma InitialSafe<T>(s: State<T>)
    requires Initial(s)
    ensures Safe(s, s.q)
  {
  }

  /**
   In every run, whoever touches the deque owns the critical section, the deque never exceeds its
   capacity, and the effects of the calls are those of an atomic bounded FIFO.
   */
  lemma {:induction false} RunSafe<T>(s0: State<T>, ls: seq<Label>)
    requires Initial(s0) && Run(s0, ls).Some?
    ensures Safe(Run(s0, ls).value, s0.q)
    ensures Run(s0, ls).value.maxSize == s0.maxSize
    ensures |Run(s0, ls).value.calls| == |s0.calls|
  {
    if ls == [] {
      InitialSafe(s0);
    } else {
      hide Safe, Step, Initial;
      RunSafe(s0, ls[..|ls| - 1]);
      SafeStep(Run(s0, ls[..|ls| - 1]).value, ls[|ls| - 1], s0.q);
    }
  }

  /** Initial contents followed by everything pushed is everything popped followed by the present contents. */
  lemma FifoConservation<T>(s0: State<T>, ls: seq<Label>)
    requires Initial(s0) && Run(s0, ls).Some?
    ensures
      var s := Run(s0, ls).value;
      && s0.q + PushedItems(s.log) == PoppedItems(s.log) + s.q
      && |s.q| <= s0.maxSize
  {
    RunSafe(s0, ls);
    ReplayConserves(s0.maxSize, s0.q, Run(s0, ls).value.log);
  }

  /** A call keeps its operation and its time limit through every run. */
  lemma {:induction false} RunKeepsCalls<T>(s0: State<T>, ls: seq<Label>)
    requires Run(s0, ls).Some?
    ensures |Run(s0, ls).value.calls| == |s0.calls|
    ensures forall i :: 0 <= i < |s0.calls| ==>
      && Run(s0, ls).value.calls[i].op == s0.calls[i].op
      && Run(s0, ls).value.calls[i].infinite == s0.calls[i].infinite
    ensures Run(s0, ls).value.maxSize == s0.maxSize
  {
    hide Step;
    if ls != [] {
      RunKeepsCalls(s0, ls[..|ls| - 1]);
      StepShape(Run(s0, ls[..|ls| - 1]).value, ls[|ls| - 1]);
    }
  }

  // ---- A call that gives up

  predicate GivingUp(p: Phase) {
    p == Asleep || p == TimedOut || p == Leave(false) || p == Done(false)
  }

  /** Call `i` was at its loop test, owning the critical section, and found itself blocked. */
  ghost predicate SawBlocked<T>(s0: State<T>, ls: seq<Label>, i: nat) {
    exists k :: 0 <= k <= |ls| && BlockedAt(s0, ls[..k], i)
  }

  ghost predicate BlockedAt<T>(s0: State<T>, ls: seq<Label>, i: nat) {
    && Run(s0, ls).Some?
    && var s := Run(s0, ls).value;
       i < |s.calls| && s.calls[i].phase == Test && s.owner == Some(i) && Blocked(s, s.calls[i].op)
  }

  lemma {:induction false} SleepersSawBlocked<T>(s0: State<T>, ls: seq<Label>, i: nat)
    requires Initial(s0) && Run(s0, ls).Some? && i < |s0.calls|
    requires |Run(s0, ls).value.calls| == |s0.calls|
    requires GivingUp(Run(s0, ls).value.calls[i].phase)
    ensures SawBlocked(s0, ls, i)
  {
    hide Step, Disciplined, Bounded, Linearized, OwnPhases;
    if ls != [] {
      var before := ls[..|ls| - 1];
      var s := Run(s0, before).value;
      RunKeepsCalls(s0, before);
      if GivingUp(s.calls[i].phase) {
        SleepersSawBlocked(s0, before, i);
        var k :| 0 <= k <= |before| && BlockedAt(s0, before[..k], i);
        assert before[..k] == ls[..k];
      } else {
        RunSafe(s0, before);
        GivingUpStartsBlocked(s, ls[|ls| - 1], i);
        assert BlockedAt(s0, ls[..|before|], i);
      }
    }
  }

  lemma GivingUpStartsBlocked<T>(s: State<T>, l: Label, i: nat)
    requires Disciplined(s) && Step(s, l).Some? && i < |s.calls|
    requires |Step(s, l).value.calls| == |s.calls|
    requires !GivingUp(s.calls[i].phase) && GivingUp(Step(s, l).value.calls[i].phase)
    ensures s.calls[i].phase == Test && s.owner == Some(i) && Blocked(s, s.calls[i].op)
  {
    StepShape(s, l);
  }

  /**
   A call that returned false had seen the blocking condition while it owned the critical section, had
   no effect on the deque, and had a finite time limit.
   */
  lemma FalseMeansBlocked<T>(s0: State<T>, ls: seq<Label>, i: nat)
    requires Initial(s0) && Run(s0, ls).Some? && i < |s0.calls|
    requires |Run(s0, ls).value.calls| == |s0.calls|
    requires Run(s0, ls).value.calls[i].phase == Done(false)
    ensures SawBlocked(s0, ls, i)
    ensures Effects(Run(s0, ls).value.log, i) == 0
    ensures !s0.calls[i].infinite
  {
    SleepersSawBlocked(s0, ls, i);
    RunSafe(s0, ls);
    if s0.calls[i].infinite {
      InfiniteNeverGivesUp(s0, ls, i);
    }
  }

  lemma InfiniteStep<T>(s: State<T>, l: Label, i: nat)
    requires Step(s, l).Some? && i < |s.calls| && s.calls[i].infinite
    requires s.calls[i].phase !in {TimedOut, Leave(false), Done(false)}
    ensures |Step(s, l).value.calls| == |s.calls| && Step(s, l).value.calls[i].infinite
    ensures Step(s, l).value.calls[i].phase !in {TimedOut, Leave(false), Done(false)}
  {
    StepShape(s, l);
  }

  /** push_back and pop_front pass INFINITE and therefore never report a timeout. */
  lemma {:induction false} InfiniteNeverGivesUp<T>(s0: State<T>, ls: seq<Label>, i: nat)
    requires Initial(s0) && Run(s0, ls).Some? && i < |s0.calls|
    requires s0.calls[i].infinite
    ensures |Run(s0, ls).value.calls| == |s0.calls| && Run(s0, ls).value.calls[i].infinite
    ensures Run(s0, ls).value.calls[i].phase !in {TimedOut, Leave(false), Done(false)}
  {
    hide Step;
    if ls != [] {
      InfiniteNeverGivesUp(s0, ls[..|ls| - 1], i);
      InfiniteStep(Run(s0, ls[..|ls| - 1]).value, ls[|ls| - 1], i);
    }
  }

  // ---- No wake-up is lost

  /**
   Calls that will still look at the resource `cond` stands for, or pass on news of it: woken but not
   yet re-checking, at the test, about to transfer, or about to wake such a call.
   */
  function CreditOn<T>(cond: Cond): Call<T> -> nat {
    (c: Call<T>) =>
      if (WaitsOn(c.op) == cond && (c.phase == Woken || c.phase == Test || c.phase == Transfer))
         || (Wakes(c.op) == cond && c.phase == Wake)
      then 1 else 0
  }

  function WokenOn<T>(cond: Cond): Call<T> -> nat {
    (c: Call<T>) => if c.phase == Woken && WaitsOn(c.op) == cond then 1 else 0
  }

  ghost predicate NoLostWakeup<T>(s: State<T>, cond: Cond) {
    Sleepers(s, cond) > 0 ==> Avail(s, cond) <= Sum(s.calls, CreditOn(cond))
  }

  /** How moving one call to another phase changes the two counts. */
  lemma CountsAt<T>(s: State<T>, i: nat, c: Call<T>, cond: Cond)
    requires i < |s.calls|
    ensures Sum(s.calls[i := c], AsleepOn(cond)) + AsleepOn(cond)(s.calls[i]) == Sleepers(s, cond) + AsleepOn(cond)(c)
    ensures Sum(s.calls[i := c], CreditOn(cond)) + CreditOn(cond)(s.calls[i])
         == Sum(s.calls, CreditOn(cond)) + CreditOn(cond)(c)
  {
    SumUpdate(s.calls, i, c, AsleepOn(cond));
    SumUpdate(s.calls, i, c, CreditOn(cond));
  }

  lemma NoLostWakeupGo<T>(s: State<T>, i: nat, cond: Cond)
    requires Disciplined(s) && Bounded(s) && NoLostWakeup(s, cond) && Step(s, Go(i)).Some?
    ensures NoLostWakeup(Step(s, Go(i)).value, cond)
  {
    var s' := Step(s, Go(i)).value;
    StepShape(s, Go(i));
    CountsAt(s, i, s'.calls[i], cond);
  }

  lemma NoLostWakeupSignal<T>(s: State<T>, i: nat, j: nat, cond: Cond)
    requires NoLostWakeup(s, cond) && Step(s, Signal(i, j)).Some?
    ensures NoLostWakeup(Step(s, Signal(i, j)).value, cond)
  {
    var t := At(s, j, Woken);
    CountsAt(s, j, t.calls[j], cond);
    CountsAt(t, i, t.calls[i].(phase := Leave(true)), cond);
  }

  lemma NoLostWakeupStep<T>(s: State<T>, l: Label, cond: Cond)
    requires Disciplined(s) && Bounded(s) && NoLostWakeup(s, cond) && Step(s, l).Some?
    ensures NoLostWakeup(Step(s, l).value, cond)
  {
    match l
    case Go(i) =>
      NoLostWakeupGo(s, i, cond);
    case Signal(i, j) =>
      NoLostWakeupSignal(s, i, j, cond);
    case Timeout(i) =>
      CountsAt(s, i, s.calls[i].(phase := TimedOut), cond);
    case Spurious(i) =>
      CountsAt(s, i, s.calls[i].(phase := Woken), cond);
  }

  lemma {:induction false} RunNoLostWakeup<T>(s0: State<T>, ls: seq<Label>, cond: Cond)
    requires Initial(s0) && Run(s0, ls).Some?
    ensures NoLostWakeup(Run(s0, ls).value, cond)
  {
    if ls == [] {
      SumZero(s0.calls, AsleepOn(cond));
    } else {
      var before := ls[..|ls| - 1];
      RunNoLostWakeup(s0, before, cond);
      RunSafe(s0, before);
      NoLostWakeupStep(Run(s0, before).value, ls[|ls| - 1], cond);
    }
  }

  /**
   Whenever nobody is inside the critical section: if a consumer sleeps, the size of the queue is at most
   the number of woken consumers yet to re-check, and if a producer sleeps, the free space is at most the
   number of woken producers. Timeouts, spurious returns and barging are all allowed.
   */
  lemma SleeperIsCovered<T>(s0: State<T>, ls: seq<Label>, cond: Cond)
    requires Initial(s0) && Run(s0, ls).Some?
    requires Run(s0, ls).value.owner == None
    requires Sleepers(Run(s0, ls).value, cond) > 0
    ensures Avail(Run(s0, ls).value, cond) <= Sum(Run(s0, ls).value.calls, WokenOn(cond))
  {
    var s := Run(s0, ls).value;
    RunNoLostWakeup(s0, ls, cond);
    RunSafe(s0, ls);
    SumMonotone(s.calls, CreditOn(cond), WokenOn(cond));
  }

  /** With capacity at least one, unfinished calls of both kinds are never all asleep at once. */
  lemma NeverAllAsleep<T>(s0: State<T>, ls: seq<Label>)
    requires Initial(s0) && Run(s0, ls).Some? && s0.maxSize >= 1
    requires forall i :: 0 <= i < |Run(s0, ls).value.calls| ==>
      Run(s0, ls).value.calls[i].phase == Asleep || Run(s0, ls).value.calls[i].phase.Done?
    ensures Sleepers(Run(s0, ls).value, QueueIsFull) == 0 || Sleepers(Run(s0, ls).value, QueueIsEmpty) == 0
  {
    var s := Run(s0, ls).value;
    RunSafe(s0, ls);
    forall cond ensures Sum(s.calls, WokenOn<T>(cond)) == 0 {
      SumZero(s.calls, WokenOn(cond));
    }
    if Sleepers(s, QueueIsFull) > 0 && Sleepers(s, QueueIsEmpty) > 0 {
      SleeperIsCovered(s0, ls, QueueIsFull);
      SleeperIsCovered(s0, ls, QueueIsEmpty);
    }
  }

  // ---- What a sleeper can be released by, besides a wake

  /**
   Every sleeping call can return spuriously, and every sleeping call with a time limit can give up: with the
   section free it re-enters it, leaves it and returns false, and has changed nothing else.
   */
  lemma SleeperGivesUp<T>(s: State<T>, i: nat)
    requires i < |s.calls| && s.calls[i].phase == Asleep
    ensures Step(s, Spurious(i)) == Some(At(s, i, Woken))
    ensures Step(s, Timeout(i)) == if s.calls[i].infinite then None else Some(At(s, i, TimedOut))
    ensures !s.calls[i].infinite && s.owner == None ==>
      Run(s, [Timeout(i)] + [Go(i)] + [Go(i)]) == Some(At(s, i, Done(false)))
  {
    if !s.calls[i].infinite && s.owner == None {
      var t1, t2 := TimedOutSteps(s, i);
      hide Step;
      assert Run(s, []) == Some(s) && [] + [Timeout(i)] == [Timeout(i)];
      RunSnoc(s, [], Timeout(i));
      RunSnoc(s, [Timeout(i)], Go(i));
      RunSnoc(s, [Timeout(i)] + [Go(i)], Go(i));
    }
  }

  lemma TimedOutSteps<T>(s: State<T>, i: nat) returns (t1: State<T>, t2: State<T>)
    requires i < |s.calls| && s.calls[i].phase == Asleep && !s.calls[i].infinite && s.owner == None
    ensures Step(s, Timeout(i)) == Some(t1) && Step(t1, Go(i)) == Some(t2)
    ensures Step(t2, Go(i)) == Some(At(s, i, Done(false)))
  {
    t1 := At(s, i, TimedOut);
    t2 := At(s, i, Leave(false)).(owner := Some(i));
    assert At(t1, i, Leave(false)).calls == At(s, i, Leave(false)).calls;
    assert At(t2, i, Done(false)).calls == At(s, i, Done(false)).calls;
  }

  /** A run that gives up: one push with a time limit on the full queue that the constructor of capacity one makes. */
  lemma PushGivesUp<T>(x: T) returns (s0: State<T>, ls: seq<Label>)
    ensures Initial(s0) && s0.q == [x] && s0.maxSize == 1 && |s0.calls| == 1 && s0.calls[0].op.Push?
    ensures Run(s0, ls) == Some(At(s0, 0, Done(false)))
  {
    s0 := State(1, [x], None, {}, [Call(Push(x), false, Start, None)], []);
    var asleep := At(s0, 0, Asleep);
    var tested := At(s0, 0, Test).(owner := Some(0));
    assert Run(s0, []) == Some(s0);
    RunSnoc(s0, [], Go(0));
    assert [] + [Go(0)] == [Go(0)];
    assert Run(s0, [Go(0)]) == Some(tested);
    RunSnoc(s0, [Go(0)], Go(0));
    assert At(tested, 0, Asleep).calls == asleep.calls;
    assert Run(s0, [Go(0)] + [Go(0)]) == Some(asleep);
    SleeperGivesUp(asleep, 0);
    ls := [Go(0)] + [Go(0)] + ([Timeout(0)] + [Go(0)] + [Go(0)]);
    RunConcat(s0, [Go(0)] + [Go(0)], [Timeout(0)] + [Go(0)] + [Go(0)]);
    assert At(asleep, 0, Done(false)).calls == At(s0, 0, Done(false)).calls;
  }

  // ---- Termination and outcome of runs without timeouts and spurious returns

  predicate Regular(l: Label) {
    l.Go? || l.Signal?
  }

  /** A potential that every step but a spurious return lowers, even the one that wakes a sleeper. */
  function Weight<T>(): Call<T> -> nat {
    (c: Call<T>) =>
      match c.phase
      case Start => 7
      case Woken => 7
      case Test => 6
      case Asleep => 5
      case Transfer => 5
      case Wake => 4
      case TimedOut => 2
      case Leave(_) => 1
      case _ => 0
  }

  lemma SignalLowersPotential<T>(s: State<T>, i: nat, j: nat)
    requires Step(s, Signal(i, j)).Some?
    ensures Sum(Step(s, Signal(i, j)).value.calls, Weight<T>()) < Sum(s.calls, Weight<T>())
  {
    var t := At(s, j, Woken);
    assert Step(s, Signal(i, j)) == Some(At(t, i, Leave(true)));
    hide Step;
    SumUpdate(s.calls, j, t.calls[j], Weight<T>());
    SumUpdate(t.calls, i, t.calls[i].(phase := Leave(true)), Weight<T>());
  }

  lemma StepLowersPotential<T>(s: State<T>, l: Label)
    requires Step(s, l).Some? && !l.Spurious?
    ensures Sum(Step(s, l).value.calls, Weight<T>()) < Sum(s.calls, Weight<T>())
  {
    StepShape(s, l);
    if l.Signal? {
      SignalLowersPotential(s, l.i, l.j);
    } else {
      SumUpdate(s.calls, l.i, Step(s, l).value.calls[l.i], Weight<T>());
    }
  }

  /** Every run without spurious returns ends, timeouts or not: n calls take at most 7n steps in total. */
  lemma {:induction false} RunsTerminate<T>(s0: State<T>, ls: seq<Label>)
    requires Initial(s0) && Run(s0, ls).Some?
    requires forall k :: 0 <= k < |ls| ==> !ls[k].Spurious?
    ensures |ls| + Sum(Run(s0, ls).value.calls, Weight<T>()) <= 7 * |s0.calls|
  {
    if ls == [] {
      SumBound(s0.calls, Weight<T>(), 7);
    } else {
      RunsTerminate(s0, ls[..|ls| - 1]);
      StepLowersPotential(Run(s0, ls[..|ls| - 1]).value, ls[|ls| - 1]);
    }
  }

  /** No call can move, short of a timeout or a spurious return. */
  ghost predicate Quiescent<T>(s: State<T>) {
    forall l :: Regular(l) ==> Step(s, l).None?
  }

  /** The owner of the critical section can always move. */
  lemma OwnerCanMove<T>(s: State<T>, q0: seq<T>)
    requires Safe(s, q0) && s.owner.Some?
    ensures !Quiescent(s)
  {
    var o := s.owner.value;
    var l := Go(o);
    if s.calls[o].phase == Wake && Sleepers(s, Wakes(s.calls[o].op)) > 0 {
      var j := SumPositive(s.calls, AsleepOn(Wakes(s.calls[o].op)));
      l := Signal(o, j);
    }
    assert Regular(l) && Step(s, l).Some?;
  }

  /** Every run can be continued to a quiescent state, so the outcome below is always reached. */
  lemma {:induction false} EveryRunCompletes<T>(s0: State<T>, ls: seq<Label>) returns (all: seq<Label>)
    requires Initial(s0) && Run(s0, ls).Some?
    requires forall k :: 0 <= k < |ls| ==> Regular(ls[k])
    ensures ls <= all && Run(s0, all).Some? && Quiescent(Run(s0, all).value)
    ensures forall k :: 0 <= k < |all| ==> Regular(all[k])
    decreases 7 * |s0.calls| - |ls|
  {
    all := ls;
    if !Quiescent(Run(s0, ls).value) {
      var l :| Regular(l) && Step(Run(s0, ls).value, l).Some?;
      assert (ls + [l])[..|ls|] == ls;
      RunsTerminate(s0, ls + [l]);
      all := EveryRunCompletes(s0, ls + [l]);
    }
  }

  /** In a quiescent state the critical section is free and every call is asleep or finished. */
  lemma QuiescentShape<T>(s: State<T>, q0: seq<T>)
    requires Safe(s, q0) && Quiescent(s)
    ensures s.owner == None
    ensures forall i :: 0 <= i < |s.calls| ==> s.calls[i].phase == Asleep || s.calls[i].phase.Done?
  {
    if s.owner.Some? {
      OwnerCanMove(s, q0);
    }
    forall i | 0 <= i < |s.calls|
      ensures s.calls[i].phase == Asleep || s.calls[i].phase.Done?
    {
      assert Regular(Go(i));
    }
  }

  lemma GoMovesOne<T>(s: State<T>, i: nat, s0: State<T>)
    requires Accounted(s, s0) && Step(s, Go(i)).Some?
    ensures MovesOne(s, Step(s, Go(i)).value, i)
  {
  }

  lemma AccountedSignal<T>(s: State<T>, i: nat, j: nat, s0: State<T>)
    requires Accounted(s, s0) && Step(s, Signal(i, j)).Some?
    ensures Accounted(Step(s, Signal(i, j)).value, s0)
  {
    var t := At(s, j, Woken);
    assert Step(s, Signal(i, j)) == Some(At(t, i, Leave(true)));
    hide Step, Accounted;
    AccountedQuietly(s, j, Woken, s0);
    AccountedQuietly(t, i, Leave(true), s0);
  }

  lemma {:induction false} RunAccounted<T>(s0: State<T>, ls: seq<Label>)
    requires Initial(s0) && Run(s0, ls).Some?
    requires forall k :: 0 <= k < |ls| ==> Regular(ls[k])
    ensures Accounted(Run(s0, ls).value, s0)
  {
    if ls == [] {
      SumZero(s0.calls, PushMade<T>());
      SumZero(s0.calls, PopMade<T>());
    } else {
      RunAccounted(s0, ls[..|ls| - 1]);
      var l := ls[|ls| - 1];
      if l.Go? {
        var s := Run(s0, ls[..|ls| - 1]).value;
        RunSafe(s0, ls[..|ls| - 1]);
        GoMovesOne(s, l.i, s0);
        AccountedGo(s, Step(s, l).value, l.i, s0);
      } else {
        AccountedSignal(Run(s0, ls[..|ls| - 1]).value, l.i, l.j, s0);
      }
    }
  }

  /**
   The outcome of every maximal run of P pushes and C pops on a queue of capacity M that starts with q0
   items: it does not depend on the schedule. The counts are as many operations as the capacity and the
   supply of items allow exactly when the capacity is at least one or only one kind of call is present;
   with capacity zero and both kinds present, everybody sleeps for ever.
   */
  lemma MaximalRunOutcome<T>(s0: State<T>, ls: seq<Label>, s: State<T>)
    requires Initial(s0) && Run(s0, ls) == Some(s) && Quiescent(s)
    requires forall k :: 0 <= k < |ls| ==> Regular(ls[k])
    ensures
      var p, c := Sum(s0.calls, PushCall<T>()), Sum(s0.calls, PopCall<T>());
      AllThatFit(s0.maxSize, |s0.q|, p, c, Sum(s.calls, PushMade<T>()), Sum(s.calls, PopMade<T>()))
      <==> s0.maxSize >= 1 || p == 0 || c == 0
    ensures s0.maxSize == 0 ==> Sum(s.calls, PushMade<T>()) == 0 && Sum(s.calls, PopMade<T>()) == 0
  {
    RunSafe(s0, ls);
    RunAccounted(s0, ls);
    QuiescentShape(s, s0.q);
    SleepersExhaust(s0, ls, QueueIsFull);
    SleepersExhaust(s0, ls, QueueIsEmpty);
    QuiescentOutcome(s0, s);
  }

  lemma QuiescentOutcome<T>(s0: State<T>, s: State<T>)
    requires |s0.q| <= s0.maxSize && s.maxSize == s0.maxSize && |s.q| <= s.maxSize && Accounted(s, s0)
    requires forall i :: 0 <= i < |s.calls| ==> s.calls[i].phase == Asleep || s.calls[i].phase.Done?
    requires forall cond :: Sleepers(s, cond) > 0 ==> Avail(s, cond) <= 0
    ensures
      var p, c := Sum(s0.calls, PushCall<T>()), Sum(s0.calls, PopCall<T>());
      AllThatFit(s0.maxSize, |s0.q|, p, c, Sum(s.calls, PushMade<T>()), Sum(s.calls, PopMade<T>()))
      <==> s0.maxSize >= 1 || p == 0 || c == 0
    ensures s0.maxSize == 0 ==> Sum(s.calls, PushMade<T>()) == 0 && Sum(s.calls, PopMade<T>()) == 0
  {
    QuiescentCounts(s);
    OutcomeArithmetic(s0.maxSize, |s0.q|, |s.q|,
                      Sum(s.calls, PushMade<T>()), Sum(s.calls, PopMade<T>()),
                      Sleepers(s, QueueIsFull), Sleepers(s, QueueIsEmpty));
  }

  lemma SleepersExhaust<T>(s0: State<T>, ls: seq<Label>, cond: Cond)
    requires Initial(s0) && Run(s0, ls).Some? && Run(s0, ls).value.owner == None
    requires forall i :: 0 <= i < |Run(s0, ls).value.calls| ==> Run(s0, ls).value.calls[i].phase != Woken
    ensures Sleepers(Run(s0, ls).value, cond) > 0 ==> Avail(Run(s0, ls).value, cond) <= 0
  {
    SumZero(Run(s0, ls).value.calls, WokenOn<T>(cond));
    if Sleepers(Run(s0, ls).value, cond) > 0 {
      SleeperIsCovered(s0, ls, cond);
    }
  }

  /** Among finished and sleeping calls, those that did not take effect are the sleepers. */
  lemma QuiescentCounts<T>(s: State<T>)
    requires forall i :: 0 <= i < |s.calls| ==> s.calls[i].phase == Asleep || s.calls[i].phase == Done(true)
    ensures Sum(s.calls, PushMade<T>()) + Sleepers(s, QueueIsFull) == Sum(s.calls, PushCall<T>())
    ensures Sum(s.calls, PopMade<T>()) + Sleepers(s, QueueIsEmpty) == Sum(s.calls, PopCall<T>())
  {
    SumSplit(s.calls, PushMade<T>(), AsleepOn(QueueIsFull), PushCall<T>());
    SumSplit(s.calls, PopMade<T>(), AsleepOn(QueueIsEmpty), PopCall<T>());
  }
}
