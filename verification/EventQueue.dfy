/**
 The event branch of the blocking queue (Windows 2000 and XP): a blocked call leaves the critical
 section, waits for an auto-reset event, and re-enters the section; waking is SetEvent. A set event
 stays set until one waiter consumes it, and setting it again has no further effect.

 The wait is not atomic with leaving the section, and two of its outcomes return to code that believes
 it owns the section: a timeout goes straight to the destructor of sync_t, and a failed wait goes
 straight back to the loop test.
 */
module EventQueue {
  import opened Prelude
  import opened QueueModel

  function Step<T>(s: State<T>, l: Label): Option<State<T>> {
    match l
    case Go(i) =>
      if i >= |s.calls| then None
      else (
        var c := s.calls[i];
        match c.phase
        case Start => Enter(s, i, Test)
        case Test => Some(At(s, i, if Blocked(s, c.op) then Unlock else Transfer))
        case Unlock => Release(s, i, Waiting)
        case Waiting =>
          if WaitsOn(c.op) in s.signalled
          then Some(At(s, i, Woken).(signalled := s.signalled - {WaitsOn(c.op)}))
          else None
        case Woken => Enter(s, i, Test)
        case Transfer => Move(s, i)
        case Wake => Some(At(s, i, Leave(true)).(signalled := s.signalled + {Wakes(c.op)}))
        case Leave(ok) => Release(s, i, Done(ok))
        case _ => None
      )
    case Timeout(i) =>
      if i < |s.calls| && s.calls[i].phase == Waiting && !s.calls[i].infinite
      then Some(At(s, i, Leave(false)))
      else None
    case WaitFails(i) =>
      if i < |s.calls| && s.calls[i].phase == Waiting then Some(At(s, i, Test)) else None
    case _ => None
  }

  function Run<T>(s: State<T>, ls: seq<Label>): Option<State<T>> {
    if ls == [] then Some(s)
    else
      match Run(s, ls[..|ls| - 1])
      case None => None
      case Some(t) => Step(t, ls[|ls| - 1])
  }

  lemma RunSnoc<T>(s: State<T>, ls: seq<Label>, l: Label)
    requires Run(s, ls).Some?
    ensures Run(s, ls + [l]) == Step(Run(s, ls).value, l)
  {
    assert (ls + [l])[..|ls|] == ls;
  }

  lemma {:induction false} RunConcat<T>(s: State<T>, a: seq<Label>, b: seq<Label>)
    requires Run(s, a).Some?
    ensures Run(s, a + b) == Run(Run(s, a).value, b)
  {
    if b == [] {
      assert a + b == a;
    } else {
      assert (a + b)[..|a + b| - 1] == a + b[..|b| - 1];
      RunConcat(s, a, b[..|b| - 1]);
    }
  }

  lemma StepShape<T>(s: State<T>, l: Label)
    requires Step(s, l).Some?
    ensures l.i < |s.calls|
    ensures var s' := Step(s, l).value;
      && s'.maxSize == s.maxSize
      && |s'.calls| == |s.calls|
      && s'.calls == s.calls[l.i := s'.calls[l.i]]
      && s'.calls[l.i].op == s.calls[l.i].op
      && s'.calls[l.i].infinite == s.calls[l.i].infinite
  {
  }

  // ---- Lock discipline: exactly the runs without timeouts and failed waits keep it

  lemma DisciplineStep<T>(s: State<T>, l: Label)
    requires Disciplined(s) && Step(s, l).Some?
    ensures Disciplined(Step(s, l).value) <==> l.Go?
  {
    StepShape(s, l);
    if !l.Go? {
      var s' := Step(s, l).value;
      assert Locking(s'.calls[l.i].phase) && !Locking(s.calls[l.i].phase);
    }
  }

  lemma {:induction false} RunDisciplined<T>(s0: State<T>, ls: seq<Label>)
    requires Initial(s0) && Run(s0, ls).Some?
    requires forall k :: 0 <= k < |ls| ==> ls[k].Go?
    ensures Disciplined(Run(s0, ls).value)
  {
    if ls != [] {
      RunDisciplined(s0, ls[..|ls| - 1]);
      DisciplineStep(Run(s0, ls[..|ls| - 1]).value, ls[|ls| - 1]);
    }
  }

  lemma {:induction false} RunPrefix<T>(s0: State<T>, ls: seq<Label>, k: nat)
    requires Run(s0, ls).Some? && k <= |ls|
    ensures Run(s0, ls[..k]).Some?
  {
    if k == |ls| {
      assert ls[..k] == ls;
    } else {
      RunPrefix(s0, ls[..|ls| - 1], k);
      assert ls[..|ls| - 1][..k] == ls[..k];
    }
  }

  /** The state after the first `k` labels is disciplined. */
  ghost predicate DisciplinedAfter<T>(s0: State<T>, ls: seq<Label>, k: nat)
    requires k <= |ls|
  {
    Run(s0, ls[..k]).Some? && Disciplined(Run(s0, ls[..k]).value)
  }

  /**
   In the event branch every call that touches the deque or reaches the destructor of sync_t owns the
   critical section if and only if no wait of the run has timed out or failed.
   */
  lemma DisciplineExactly<T>(s0: State<T>, ls: seq<Label>)
    requires Initial(s0) && Run(s0, ls).Some?
    ensures (forall k :: 0 <= k <= |ls| ==> DisciplinedAfter(s0, ls, k))
            <==> (forall k :: 0 <= k < |ls| ==> ls[k].Go?)
  {
    if forall k :: 0 <= k < |ls| ==> ls[k].Go? {
      forall k | 0 <= k <= |ls| ensures DisciplinedAfter(s0, ls, k) {
        RunPrefix(s0, ls, k);
        RunDisciplined(s0, ls[..k]);
      }
    } else {
      var m := FirstBadWait(ls);
      RunPrefix(s0, ls, m);
      RunPrefix(s0, ls, m + 1);
      RunDisciplined(s0, ls[..m]);
      assert ls[..m + 1][..m] == ls[..m];
      DisciplineStep(Run(s0, ls[..m]).value, ls[m]);
      assert !DisciplinedAfter(s0, ls, m + 1);
    }
  }

  /**
   A run in which a wait times out: one push with a time limit on the full queue that the constructor of
   capacity one makes. The call returns to the destructor without owning the section.
   */
  lemma TimeoutBreaksDiscipline<T>(x: T) returns (s0: State<T>, ls: seq<Label>)
    ensures Initial(s0) && s0.q == [x] && s0.maxSize == 1 && Run(s0, ls).Some?
    ensures !Disciplined(Run(s0, ls).value)
    ensures var s := Run(s0, ls).value; |s.calls| == 1 && s.calls[0].phase == Leave(false) && s.owner == None
  {
    s0 := State(1, [x], None, {}, [Call(Push(x), false, Start, None)], []);
    var waiting := At(s0, 0, Waiting);
    BlockAlone(s0, 0);
    ls := Gos(0, 3) + [Timeout(0)];
    RunSnoc(s0, Gos(0, 3), Timeout(0));
    assert Run(s0, ls) == Some(At(waiting, 0, Leave(false)));
    assert Locking(At(waiting, 0, Leave(false)).calls[0].phase);
  }

  /** The same run with a wait that fails: the call is back at the loop test without owning the section. */
  lemma FailedWaitBreaksDiscipline<T>(x: T) returns (s0: State<T>, ls: seq<Label>)
    ensures Initial(s0) && s0.q == [x] && s0.maxSize == 1 && Run(s0, ls).Some?
    ensures !Disciplined(Run(s0, ls).value)
    ensures var s := Run(s0, ls).value; |s.calls| == 1 && s.calls[0].phase == Test && s.owner == None
  {
    s0 := State(1, [x], None, {}, [Call(Push(x), true, Start, None)], []);
    var waiting := At(s0, 0, Waiting);
    BlockAlone(s0, 0);
    ls := Gos(0, 3) + [WaitFails(0)];
    RunSnoc(s0, Gos(0, 3), WaitFails(0));
    assert Run(s0, ls) == Some(At(waiting, 0, Test));
    assert Locking(At(waiting, 0, Test).calls[0].phase);
  }

  lemma {:induction false} FirstBadWait(ls: seq<Label>) returns (m: nat)
    requires exists k :: 0 <= k < |ls| && !ls[k].Go?
    ensures m < |ls| && !ls[m].Go?
    ensures forall k :: 0 <= k < m ==> ls[k].Go?
  {
    if !ls[0].Go? {
      m := 0;
    } else {
      var k :| 0 <= k < |ls| && !ls[k].Go?;
      assert ls[k] == ls[1..][k - 1];
      m := FirstBadWait(ls[1..]);
      m := m + 1;
    }
  }

  /** There is no step of call `i`. */
  ghost predicate NeverMoves<T>(s: State<T>, i: nat) {
    forall l: Label :: l.i == i ==> Step(s, l).None?
  }

  /** Calls that are outside the critical section. */
  predicate Outside(p: Phase) {
    p == Start || p == Waiting || p == Woken || p == Leave(false) || p.Done?
  }

  /**
   In every run, whatever times out or fails: a call whose wait timed out stands at the destructor of
   sync_t without owning the critical section that it is about to leave, and stays there.
   */
  lemma {:induction false} TimeoutReleasesUnowned<T>(s0: State<T>, ls: seq<Label>, i: nat)
    requires Initial(s0) && Run(s0, ls).Some? && i < |Run(s0, ls).value.calls|
    requires Outside(Run(s0, ls).value.calls[i].phase)
    ensures Run(s0, ls).value.owner != Some(i)
    ensures Run(s0, ls).value.calls[i].phase == Leave(false) ==> NeverMoves(Run(s0, ls).value, i)
    ensures Run(s0, ls).value.calls[i].phase != Done(false)
  {
    if ls != [] {
      var before, l := ls[..|ls| - 1], ls[|ls| - 1];
      var t := Run(s0, before).value;
      StepShape(t, l);
      if Outside(t.calls[i].phase) {
        TimeoutReleasesUnowned(s0, before, i);
      }
      hide Run;
      OutsideStep(t, l, i);
    }
  }

  lemma OutsideStep<T>(t: State<T>, l: Label, i: nat)
    requires Step(t, l).Some? && i < |t.calls| && i < |Step(t, l).value.calls|
    requires Outside(Step(t, l).value.calls[i].phase)
    requires Outside(t.calls[i].phase) ==> t.owner != Some(i) && t.calls[i].phase != Done(false)
    ensures var s := Step(t, l).value;
      && s.owner != Some(i)
      && (s.calls[i].phase == Leave(false) ==> NeverMoves(s, i))
      && s.calls[i].phase != Done(false)
  {
  }

  // ---- Capacity and FIFO refinement in disciplined runs

  ghost predicate Safe<T>(s: State<T>, q0: seq<T>) {
    && Disciplined(s)
    && Bounded(s)
    && Linearized(s, q0)
    && OwnPhases(s)
  }

  /** A call about to leave the section to wait is blocked, and the phases of the other branch never occur. */
  ghost predicate OwnPhases<T>(s: State<T>) {
    && (forall i :: 0 <= i < |s.calls| && s.calls[i].phase == Unlock ==> Blocked(s, s.calls[i].op))
    && (forall i :: 0 <= i < |s.calls| ==> s.calls[i].phase != Asleep && s.calls[i].phase != TimedOut)
  }

  lemma BoundedStep<T>(s: State<T>, i: nat)
    requires Disciplined(s) && Bounded(s) && Step(s, Go(i)).Some?
    ensures Bounded(Step(s, Go(i)).value)
  {
    StepShape(s, Go(i));
  }

  lemma QuietShape<T>(s: State<T>, i: nat)
    requires Step(s, Go(i)).Some? && s.calls[i].phase != Transfer
    ensures var s' := Step(s, Go(i)).value;
      && s'.q == s.q && s'.log == s.log && s'.maxSize == s.maxSize && |s'.calls| == |s.calls|
      && forall k :: 0 <= k < |s.calls| ==>
           && s'.calls[k].op == s.calls[k].op
           && s'.calls[k].got == s.calls[k].got
           && Moved(s'.calls[k].phase) == Moved(s.calls[k].phase)
  {
  }

  lemma LinearizedStep<T>(s: State<T>, i: nat, q0: seq<T>)
    requires Bounded(s) && Linearized(s, q0) && Step(s, Go(i)).Some?
    ensures Linearized(Step(s, Go(i)).value, q0)
  {
    if s.calls[i].phase == Transfer {
      LinearizedMove(s, i, q0);
    } else {
      QuietShape(s, i);
      LinearizedFrame(s, Step(s, Go(i)).value, q0);
    }
  }

  lemma OwnPhasesStep<T>(s: State<T>, i: nat)
    requires Disciplined(s) && OwnPhases(s) && Step(s, Go(i)).Some?
    ensures OwnPhases(Step(s, Go(i)).value)
  {
    StepShape(s, Go(i));
  }

  lemma SafeStep<T>(s: State<T>, i: nat, q0: seq<T>)
    requires Safe(s, q0) && Step(s, Go(i)).Some?
    ensures Safe(Step(s, Go(i)).value, q0)
  {
    hide Step, Disciplined, Bounded, Linearized, OwnPhases;
    DisciplineStep(s, Go(i));
    BoundedStep(s, i);
    LinearizedStep(s, i, q0);
    OwnPhasesStep(s, i);
  }

  /** Without timeouts and failed waits the event branch, too, implements the atomic bounded FIFO. */
  lemma {:induction false} RunSafe<T>(s0: State<T>, ls: seq<Label>)
    requires Initial(s0) && Run(s0, ls).Some?
    requires forall k :: 0 <= k < |ls| ==> ls[k].Go?
    ensures Safe(Run(s0, ls).value, s0.q)
    ensures Run(s0, ls).value.maxSize == s0.maxSize && |Run(s0, ls).value.calls| == |s0.calls|
  {
    if ls != [] {
      RunSafe(s0, ls[..|ls| - 1]);
      SafeStep(Run(s0, ls[..|ls| - 1]).value, ls[|ls| - 1].i, s0.q);
    }
  }

  // ---- Lost wake-ups: the exact limit

  function ActiveOn<T>(cond: Cond): Call<T> -> nat {
    (c: Call<T>) => if WaitsOn(c.op) == cond && c.phase != Start && !c.phase.Done? then 1 else 0
  }

  function WaitingOn<T>(cond: Cond): Call<T> -> nat {
    (c: Call<T>) => if WaitsOn(c.op) == cond && c.phase == Waiting then 1 else 0
  }

  function AboutToSet<T>(cond: Cond): Call<T> -> nat {
    (c: Call<T>) => if Wakes(c.op) == cond && c.phase == Wake then 1 else 0
  }

  /** At no point of the run are more than `limit` calls of the kind that waits on `cond` in progress. */
  ghost predicate AtMost<T>(s0: State<T>, ls: seq<Label>, cond: Cond, limit: nat) {
    forall k :: 0 <= k <= |ls| ==> AtMostAfter(s0, ls[..k], cond, limit)
  }

  ghost predicate AtMostAfter<T>(s0: State<T>, ls: seq<Label>, cond: Cond, limit: nat) {
    Run(s0, ls).Some? && Sum(Run(s0, ls).value.calls, ActiveOn(cond)) <= limit
  }

  /** A waiting call that could proceed has its event set, or someone is about to set it. */
  ghost predicate Announced<T>(s: State<T>, cond: Cond) {
    Sum(s.calls, WaitingOn(cond)) > 0 && Avail(s, cond) > 0 ==>
      cond in s.signalled || Sum(s.calls, AboutToSet(cond)) > 0
  }

  lemma CountsAt<T>(s: State<T>, i: nat, c: Call<T>, cond: Cond)
    requires i < |s.calls|
    ensures Sum(s.calls[i := c], WaitingOn(cond)) + WaitingOn(cond)(s.calls[i])
         == Sum(s.calls, WaitingOn(cond)) + WaitingOn(cond)(c)
    ensures Sum(s.calls[i := c], AboutToSet(cond)) + AboutToSet(cond)(s.calls[i])
         == Sum(s.calls, AboutToSet(cond)) + AboutToSet(cond)(c)
  {
    SumUpdate(s.calls, i, c, WaitingOn(cond));
    SumUpdate(s.calls, i, c, AboutToSet(cond));
  }

  /** With at most one active call on `cond`, the one that just left its wait was the only waiter. */
  lemma OnlyWaiter<T>(s: State<T>, i: nat, cond: Cond)
    requires i < |s.calls| && Sum(s.calls, ActiveOn(cond)) <= 1
    requires ActiveOn(cond)(s.calls[i]) == 1 && s.calls[i].phase != Waiting
    ensures Sum(s.calls, WaitingOn(cond)) == 0
  {
    forall k | 0 <= k < |s.calls| ensures WaitingOn<T>(cond)(s.calls[k]) == 0 {
      if k < i {
        SumAtLeastTwo(s.calls, k, i, ActiveOn(cond));
      } else if i < k {
        SumAtLeastTwo(s.calls, i, k, ActiveOn(cond));
      }
    }
    SumZero(s.calls, WaitingOn(cond));
  }

  lemma AnnouncedStep<T>(s: State<T>, i: nat, cond: Cond, q0: seq<T>)
    requires Safe(s, q0) && Announced(s, cond) && Step(s, Go(i)).Some?
    requires Sum(Step(s, Go(i)).value.calls, ActiveOn(cond)) <= 1
    ensures Announced(Step(s, Go(i)).value, cond)
  {
    hide Linearized, Bounded;
    var s' := Step(s, Go(i)).value;
    StepShape(s, Go(i));
    CountsAt(s, i, s'.calls[i], cond);
    if s.calls[i].phase == Waiting && WaitsOn(s.calls[i].op) == cond {
      OnlyWaiter(s', i, cond);
    }
  }

  /**
   With at most one consumer (producer) in progress at a time, and any number of calls of the other kind,
   a consumer (producer) that waits although it could proceed has its event set or about to be set.
   */
  lemma {:induction false} RunAnnounced<T>(s0: State<T>, ls: seq<Label>, cond: Cond)
    requires Initial(s0) && Run(s0, ls).Some?
    requires forall k :: 0 <= k < |ls| ==> ls[k].Go?
    requires AtMost(s0, ls, cond, 1)
    ensures Announced(Run(s0, ls).value, cond)
  {
    if ls == [] {
      SumZero(s0.calls, WaitingOn(cond));
    } else {
      var n := |ls| - 1;
      var before := ls[..n];
      forall k | 0 <= k <= n ensures AtMostAfter(s0, before[..k], cond, 1) {
        assert before[..k] == ls[..k];
        assert AtMostAfter(s0, ls[..k], cond, 1);
      }
      RunAnnounced(s0, before, cond);
      RunSafe(s0, before);
      assert ls[..|ls|] == ls;
      assert AtMostAfter(s0, ls[..|ls|], cond, 1);
      AnnouncedStep(Run(s0, before).value, ls[n].i, cond, s0.q);
    }
  }

  /** Nobody can move, and a call waits on `cond` although what it waits for is there. */
  ghost predicate Stranded<T>(s: State<T>, cond: Cond) {
    && (forall i :: Step(s, Go(i)).None?)
    && Avail(s, cond) > 0
    && Sum(s.calls, WaitingOn(cond)) > 0
  }

  lemma AnnouncedCanMove<T>(s: State<T>, cond: Cond)
    requires Announced(s, cond)
    ensures !Stranded(s, cond)
  {
    if Sum(s.calls, WaitingOn(cond)) > 0 && Avail(s, cond) > 0 {
      var i: nat;
      if cond in s.signalled {
        i := SumPositive(s.calls, WaitingOn(cond));
      } else {
        i := SumPositive(s.calls, AboutToSet(cond));
      }
      assert Step(s, Go(i)).Some?;
    }
  }

  /** No run with at most `limit` calls on `cond` in progress at a time strands one of them. */
  ghost predicate NeverStrands<T(!new)>(cond: Cond, limit: nat) {
    forall s0: State<T>, ls: seq<Label> ::
      Initial(s0) && Run(s0, ls).Some? && (forall k :: 0 <= k < |ls| ==> ls[k].Go?) && AtMost(s0, ls, cond, limit)
      ==> !Stranded(Run(s0, ls).value, cond)
  }

  /** Call `i` executes `n` statements in a row. */
  function Gos(i: nat, n: nat): (ls: seq<Label>)
    ensures |ls| == n && forall k :: 0 <= k < n ==> ls[k] == Go(i)
  {
    if n == 0 then [] else Gos(i, n - 1) + [Go(i)]
  }

  lemma RunGos<T>(s: State<T>, i: nat, n: nat)
    requires n > 0 && Run(s, Gos(i, n - 1)).Some?
    ensures Run(s, Gos(i, n)) == Step(Run(s, Gos(i, n - 1)).value, Go(i))
  {
    assert Gos(i, n)[..n - 1] == Gos(i, n - 1);
  }

  /** A blocked call runs alone until it waits. */
  lemma BlockAlone<T>(s: State<T>, i: nat)
    requires i < |s.calls| && s.calls[i].phase == Start && s.owner == None && Blocked(s, s.calls[i].op)
    ensures Run(s, Gos(i, 3)) == Some(At(s, i, Waiting))
  {
    RunGos(s, i, 1);
    RunGos(s, i, 2);
    RunGos(s, i, 3);
    assert Run(s, Gos(i, 3)).value.calls == At(s, i, Waiting).calls;
  }

  /** What a call that is not blocked leaves behind when it has run to its end. */
  function Finished<T>(s: State<T>, i: nat): State<T>
    requires i < |s.calls| && !Blocked(s, s.calls[i].op)
  {
    var t := Move(s, i).value;
    At(t, i, Done(true)).(signalled := s.signalled + {Wakes(s.calls[i].op)})
  }

  lemma StepsToEnd<T>(s: State<T>, i: nat) returns (t1: State<T>, t2: State<T>, t3: State<T>)
    requires i < |s.calls| && s.calls[i].phase == Test && s.owner == Some(i) && !Blocked(s, s.calls[i].op)
    ensures Step(s, Go(i)) == Some(t1) && Step(t1, Go(i)) == Some(t2) && Step(t2, Go(i)) == Some(t3)
    ensures Step(t3, Go(i)) == Some(Finished(s, i).(owner := None))
  {
    t1 := At(s, i, Transfer);
    t2 := Move(t1, i).value;
    t3 := At(t2, i, Leave(true)).(signalled := s.signalled + {Wakes(s.calls[i].op)});
    assert At(t3, i, Done(true)).calls == Finished(s, i).calls;
  }

  lemma TestToEnd<T>(s: State<T>, i: nat)
    requires i < |s.calls| && s.calls[i].phase == Test && s.owner == Some(i) && !Blocked(s, s.calls[i].op)
    ensures Run(s, Gos(i, 4)) == Some(Finished(s, i).(owner := None))
  {
    var t1, t2, t3 := StepsToEnd(s, i);
    RunFour(s, i, t1, t2, t3);
  }

  lemma RunFour<T>(s: State<T>, i: nat, t1: State<T>, t2: State<T>, t3: State<T>)
    requires Step(s, Go(i)) == Some(t1) && Step(t1, Go(i)) == Some(t2) && Step(t2, Go(i)) == Some(t3)
    ensures Run(s, Gos(i, 4)) == Step(t3, Go(i))
  {
    RunGos(s, i, 1);
    RunGos(s, i, 2);
    RunGos(s, i, 3);
    RunGos(s, i, 4);
  }

  lemma FinishAlone<T>(s: State<T>, i: nat)
    requires i < |s.calls| && s.calls[i].phase == Start && s.owner == None && !Blocked(s, s.calls[i].op)
    ensures Run(s, Gos(i, 1) + Gos(i, 4)) == Some(Finished(s, i))
  {
    RunGos(s, i, 1);
    var t := Run(s, Gos(i, 1)).value;
    TestToEnd(t, i);
    RunConcat(s, Gos(i, 1), Gos(i, 4));
    assert Finished(t, i).calls == Finished(s, i).calls;
  }

  /** Consuming the event and re-entering the section. */
  lemma WakeToTest<T>(s: State<T>, i: nat) returns (t: State<T>)
    requires i < |s.calls| && s.calls[i].phase == Waiting && WaitsOn(s.calls[i].op) in s.signalled && s.owner == None
    ensures Run(s, Gos(i, 2)) == Some(t)
    ensures t == At(s, i, Test).(signalled := s.signalled - {WaitsOn(s.calls[i].op)}, owner := Some(i))
  {
    hide Run, Step;
    var t1 := ConsumeThenEnter(s, i);
    RunTwo(s, i, t1);
    t := At(s, i, Test).(signalled := s.signalled - {WaitsOn(s.calls[i].op)}, owner := Some(i));
  }

  lemma ConsumeThenEnter<T>(s: State<T>, i: nat) returns (t1: State<T>)
    requires i < |s.calls| && s.calls[i].phase == Waiting && WaitsOn(s.calls[i].op) in s.signalled && s.owner == None
    ensures Step(s, Go(i)) == Some(t1)
    ensures Step(t1, Go(i))
         == Some(At(s, i, Test).(signalled := s.signalled - {WaitsOn(s.calls[i].op)}, owner := Some(i)))
  {
    t1 := At(s, i, Woken).(signalled := s.signalled - {WaitsOn(s.calls[i].op)});
    assert At(t1, i, Test).calls == At(s, i, Test).calls;
  }

  lemma RunTwo<T>(s: State<T>, i: nat, t1: State<T>)
    requires Step(s, Go(i)) == Some(t1)
    ensures Run(s, Gos(i, 2)) == Step(t1, Go(i))
  {
    RunGos(s, i, 1);
    RunGos(s, i, 2);
  }

  lemma ResumeAlone<T>(s: State<T>, i: nat)
    requires i < |s.calls| && s.calls[i].phase == Waiting && WaitsOn(s.calls[i].op) in s.signalled
    requires s.owner == None && !Blocked(s, s.calls[i].op)
    ensures Run(s, Gos(i, 2) + Gos(i, 4)) == Some(Finished(s.(signalled := s.signalled - {WaitsOn(s.calls[i].op)}), i))
  {
    hide Run, Step;
    var t := WakeToTest(s, i);
    TestToEnd(t, i);
    RunConcat(s, Gos(i, 2), Gos(i, 4));
    assert Finished(t, i).calls == Finished(s.(signalled := s.signalled - {WaitsOn(s.calls[i].op)}), i).calls;
  }

  /**
   Two calls that block on `cond` at first, and two calls of the other kind, on a queue of capacity two. A
   constructed queue is full; the queue of the consumers is one from which earlier calls have popped the two
   initial items, so its contents here are any that fit, and its log begins with what comes after.
   */
  function TwoAgainstTwo<T>(cond: Cond, x: T): State<T> {
    var (waiter, waker) := if cond == QueueIsEmpty then (Pop, Push(x)) else (Push(x), Pop);
    var contents := if cond == QueueIsEmpty then [] else [x, x];
    State(2, contents, None, {},
          [Call(waiter, true, Start, None), Call(waiter, true, Start, None),
           Call(waker, true, Start, None), Call(waker, true, Start, None)], [])
  }

  /** Both waiters leave the critical section; both wakers set the event before either waits for it. */
  function Coalescing(): (ls: seq<Label>)
    ensures forall k :: 0 <= k < |ls| ==> ls[k].Go?
  {
    Gos(0, 3) + Gos(1, 3) + (Gos(2, 1) + Gos(2, 4)) + (Gos(3, 1) + Gos(3, 4)) + (Gos(0, 2) + Gos(0, 4))
  }

  /** The states in which the five parts of that schedule end. */
  lemma CoalescingStates<T>(cond: Cond, x: T) returns (s2: State<T>, s3: State<T>, s4: State<T>, s5: State<T>)
    ensures s2 == At(At(TwoAgainstTwo(cond, x), 0, Waiting), 1, Waiting)
    ensures s2.calls[2].op == TwoAgainstTwo(cond, x).calls[2].op && !Blocked(s2, s2.calls[2].op)
    ensures s3 == Finished(s2, 2)
    ensures s3.calls[3].op == TwoAgainstTwo(cond, x).calls[3].op && !Blocked(s3, s3.calls[3].op)
    ensures s4 == Finished(s3, 3)
    ensures s4.calls[0].op == TwoAgainstTwo(cond, x).calls[0].op && !Blocked(s4, s4.calls[0].op)
    ensures s5 == Finished(s4.(signalled := s4.signalled - {cond}), 0)
  {
    s2 := At(At(TwoAgainstTwo(cond, x), 0, Waiting), 1, Waiting);
    s3 := Finished(s2, 2);
    s4 := Finished(s3, 3);
    s5 := Finished(s4.(signalled := s4.signalled - {cond}), 0);
  }

  lemma CoalescingBlocks<T>(cond: Cond, x: T)
    ensures Run(TwoAgainstTwo(cond, x), Gos(0, 3) + Gos(1, 3))
         == Some(At(At(TwoAgainstTwo(cond, x), 0, Waiting), 1, Waiting))
  {
    var s0 := TwoAgainstTwo(cond, x);
    BlockAlone(s0, 0);
    BlockAlone(At(s0, 0, Waiting), 1);
    RunConcat(s0, Gos(0, 3), Gos(1, 3));
  }

  lemma CoalescingRun<T>(cond: Cond, x: T) returns (s5: State<T>)
    ensures Run(TwoAgainstTwo(cond, x), Coalescing()) == Some(s5)
    ensures |s5.calls| == 4 && Avail(s5, cond) == 1 && cond !in s5.signalled
    ensures s5.calls[1].phase == Waiting && WaitsOn(s5.calls[1].op) == cond
    ensures s5.calls[0].phase.Done? && s5.calls[2].phase.Done? && s5.calls[3].phase.Done?
  {
    var s2, s3, s4, s5' := CoalescingStates(cond, x);
    s5 := s5';
    CoalescingChain(cond, x, s2, s3, s4, s5);
  }

  lemma CoalescingChain<T>(cond: Cond, x: T, s2: State<T>, s3: State<T>, s4: State<T>, s5: State<T>)
    requires s2 == At(At(TwoAgainstTwo(cond, x), 0, Waiting), 1, Waiting)
    requires |s2.calls| == 4 && s2.calls[2].phase == Start && s2.owner == None && !Blocked(s2, s2.calls[2].op)
    requires s3 == Finished(s2, 2)
    requires |s3.calls| == 4 && s3.calls[3].phase == Start && s3.owner == None && !Blocked(s3, s3.calls[3].op)
    requires s4 == Finished(s3, 3)
    requires |s4.calls| == 4 && s4.calls[0].phase == Waiting && WaitsOn(s4.calls[0].op) == cond && cond in s4.signalled
    requires s4.owner == None && !Blocked(s4, s4.calls[0].op)
    requires s5 == Finished(s4.(signalled := s4.signalled - {cond}), 0)
    ensures Run(TwoAgainstTwo(cond, x), Coalescing()) == Some(s5)
  {
    hide Step, Finished, Blocked;
    var s0 := TwoAgainstTwo(cond, x);
    CoalescingBlocks(cond, x);
    FinishAlone(s2, 2);
    RunConcat(s0, Gos(0, 3) + Gos(1, 3), Gos(2, 1) + Gos(2, 4));
    FinishAlone(s3, 3);
    RunConcat(s0, Gos(0, 3) + Gos(1, 3) + (Gos(2, 1) + Gos(2, 4)), Gos(3, 1) + Gos(3, 4));
    ResumeAlone(s4, 0);
    RunConcat(s0, Gos(0, 3) + Gos(1, 3) + (Gos(2, 1) + Gos(2, 4)) + (Gos(3, 1) + Gos(3, 4)), Gos(0, 2) + Gos(0, 4));
  }

  /** The second SetEvent is absorbed by the first, and one waiter is left beside what it waits for. */
  lemma CoalescingStrands<T>(cond: Cond, x: T)
    ensures Run(TwoAgainstTwo(cond, x), Coalescing()).Some?
    ensures Stranded(Run(TwoAgainstTwo(cond, x), Coalescing()).value, cond)
  {
    hide Step, Run;
    var s5 := CoalescingRun(cond, x);
    OneLeftWaiting(s5, cond);
    SumAtLeast(s5.calls, 1, WaitingOn(cond));
  }

  lemma OneLeftWaiting<T>(s: State<T>, cond: Cond)
    requires |s.calls| == 4 && cond !in s.signalled
    requires s.calls[1].phase == Waiting && WaitsOn(s.calls[1].op) == cond
    requires s.calls[0].phase.Done? && s.calls[2].phase.Done? && s.calls[3].phase.Done?
    ensures forall i :: Step(s, Go(i)).None?
  {
  }

  function KindOn<T>(cond: Cond): Call<T> -> nat {
    (c: Call<T>) => if WaitsOn(c.op) == cond then 1 else 0
  }

  lemma {:induction false} RunKeepsKinds<T>(s0: State<T>, ls: seq<Label>, cond: Cond)
    requires Run(s0, ls).Some?
    ensures Sum(Run(s0, ls).value.calls, KindOn(cond)) == Sum(s0.calls, KindOn(cond))
  {
    if ls != [] {
      var t := Run(s0, ls[..|ls| - 1]).value;
      var l := ls[|ls| - 1];
      RunKeepsKinds(s0, ls[..|ls| - 1], cond);
      StepShape(t, l);
      SumUpdate(t.calls, l.i, Step(t, l).value.calls[l.i], KindOn(cond));
    }
  }

  lemma CoalescingHasTwo<T>(cond: Cond, x: T)
    ensures AtMost(TwoAgainstTwo(cond, x), Coalescing(), cond, 2)
  {
    var s0, ls := TwoAgainstTwo(cond, x), Coalescing();
    CoalescingStrands(cond, x);
    forall k | 0 <= k <= |ls| ensures AtMostAfter(s0, ls[..k], cond, 2) {
      RunPrefix(s0, ls, k);
      RunKeepsKinds(s0, ls[..k], cond);
      SumMonotone(Run(s0, ls[..k]).value.calls, ActiveOn(cond), KindOn(cond));
      var c := s0.calls;
      assert c == [c[0]] + ([c[1]] + ([c[2]] + [c[3]]));
      SumConcat([c[0]], [c[1]] + ([c[2]] + [c[3]]), KindOn(cond));
      SumConcat([c[1]], [c[2]] + [c[3]], KindOn(cond));
      SumConcat([c[2]], [c[3]], KindOn(cond));
    }
  }

  lemma AtMostWeaken<T>(s0: State<T>, ls: seq<Label>, cond: Cond, a: nat, b: nat)
    requires AtMost(s0, ls, cond, a) && a <= b
    ensures AtMost(s0, ls, cond, b)
  {
    forall k | 0 <= k <= |ls| ensures AtMostAfter(s0, ls[..k], cond, b) {
      assert AtMostAfter(s0, ls[..k], cond, a);
    }
  }

  /**
   The exact limit of the event branch with infinite waits: no consumer (producer) is ever stranded beside
   an item (a free slot) if and only if no more than one of them is in progress at a time.
   */
  lemma StrandingLimit<T(!new)>(cond: Cond, limit: nat, x: T)
    ensures NeverStrands<T>(cond, limit) <==> limit <= 1
  {
    if limit <= 1 {
      forall s0: State<T>, ls: seq<Label> |
        Initial(s0) && Run(s0, ls).Some? && (forall k :: 0 <= k < |ls| ==> ls[k].Go?) && AtMost(s0, ls, cond, limit)
        ensures !Stranded(Run(s0, ls).value, cond)
      {
        AtMostWeaken(s0, ls, cond, limit, 1);
        RunAnnounced(s0, ls, cond);
        AnnouncedCanMove(Run(s0, ls).value, cond);
      }
    } else {
      CoalescingStrands(cond, x);
      CoalescingHasTwo(cond, x);
      AtMostWeaken(TwoAgainstTwo(cond, x), Coalescing(), cond, 2, limit);
    }
  }

  // ---- Termination, and the outcome of runs with at most one push and one pop in progress at a time

  /** Statements a call still executes at most, an event that it sets counted as four. */
  function Weight<T>(): Call<T> -> nat {
    (c: Call<T>) =>
      match c.phase
      case Start => 9
      case Woken => 9
      case Test => 8
      case Unlock => 7
      case Transfer => 7
      case Waiting => 6
      case Wake => 6
      case Leave(_) => 1
      case _ => 0
  }

  function Potential<T>(s: State<T>): nat {
    Sum(s.calls, Weight<T>()) + 4 * |s.signalled|
  }

  lemma MoveLowersWeight<T>(s: State<T>, i: nat)
    requires i < |s.calls| && s.calls[i].phase == Transfer && Move(s, i).Some?
    ensures var s' := Move(s, i).value;
      && |s'.calls| == |s.calls| && s'.signalled == s.signalled
      && Weight<T>()(s'.calls[i]) < Weight<T>()(s.calls[i])
  {
  }

  /** A signalled wait raises the weight of the call, but uses up the event. */
  lemma StepLowersWeight<T>(s: State<T>, l: Label)
    requires Step(s, l).Some? && !l.WaitFails? && l.i < |s.calls| == |Step(s, l).value.calls|
    ensures var s' := Step(s, l).value;
      Weight<T>()(s'.calls[l.i]) + 4 * |s'.signalled| < Weight<T>()(s.calls[l.i]) + 4 * |s.signalled|
  {
    hide Move, Blocked;
    if l.Go? && s.calls[l.i].phase == Transfer {
      MoveLowersWeight(s, l.i);
    }
  }

  lemma StepLowersPotential<T>(s: State<T>, l: Label)
    requires Step(s, l).Some? && !l.WaitFails?
    ensures Potential(Step(s, l).value) < Potential(s)
  {
    hide Step, Weight;
    StepShape(s, l);
    StepLowersWeight(s, l);
    SumUpdate(s.calls, l.i, Step(s, l).value.calls[l.i], Weight<T>());
  }

  /** Every run without failed waits ends, timeouts or not: n calls take at most 9n steps in total. */
  lemma {:induction false} RunsTerminate<T>(s0: State<T>, ls: seq<Label>)
    requires Initial(s0) && Run(s0, ls).Some?
    requires forall k :: 0 <= k < |ls| ==> !ls[k].WaitFails?
    ensures |ls| + Potential(Run(s0, ls).value) <= 9 * |s0.calls|
  {
    if ls == [] {
      SumBound(s0.calls, Weight<T>(), 9);
    } else {
      RunsTerminate(s0, ls[..|ls| - 1]);
      StepLowersPotential(Run(s0, ls[..|ls| - 1]).value, ls[|ls| - 1]);
    }
  }

  // ---- One push and one pop at a time

  /** At no point of the run is more than one call of either kind in progress. */
  ghost predicate TakesTurns<T>(s0: State<T>, ls: seq<Label>) {
    AtMost(s0, ls, QueueIsFull, 1) && AtMost(s0, ls, QueueIsEmpty, 1)
  }

  /** It is the turn of call `i`: it is in progress, or no other call of its kind is. */
  ghost predicate MayGo<T>(s: State<T>, i: nat) {
    && Step(s, Go(i)).Some?
    && (s.calls[i].phase == Start ==> Sum(s.calls, ActiveOn(WaitsOn(s.calls[i].op))) == 0)
  }

  /** Nobody can move whose turn it is. */
  ghost predicate Over<T>(s: State<T>) {
    forall i: nat :: !MayGo(s, i)
  }

  lemma ActiveAfter<T>(s: State<T>, i: nat, cond: Cond)
    requires MayGo(s, i) && Sum(s.calls, ActiveOn(cond)) <= 1
    ensures Sum(Step(s, Go(i)).value.calls, ActiveOn(cond)) <= 1
  {
    StepShape(s, Go(i));
    SumUpdate(s.calls, i, Step(s, Go(i)).value.calls[i], ActiveOn(cond));
  }

  lemma AtMostLast<T>(s0: State<T>, ls: seq<Label>, cond: Cond)
    requires AtMost(s0, ls, cond, 1)
    ensures Run(s0, ls).Some? && Sum(Run(s0, ls).value.calls, ActiveOn(cond)) <= 1
  {
    assert ls[..|ls|] == ls;
    assert AtMostAfter(s0, ls[..|ls|], cond, 1);
  }

  lemma AtMostLonger<T>(s0: State<T>, ls: seq<Label>, i: nat, cond: Cond)
    requires AtMost(s0, ls, cond, 1) && Run(s0, ls).Some? && MayGo(Run(s0, ls).value, i)
    ensures AtMost(s0, ls + [Go(i)], cond, 1)
  {
    var all := ls + [Go(i)];
    RunSnoc(s0, ls, Go(i));
    AtMostLast(s0, ls, cond);
    ActiveAfter(Run(s0, ls).value, i, cond);
    forall k | 0 <= k <= |all| ensures AtMostAfter(s0, all[..k], cond, 1) {
      if k <= |ls| {
        assert all[..k] == ls[..k];
        assert AtMostAfter(s0, ls[..k], cond, 1);
      } else {
        assert all[..k] == all;
      }
    }
  }

  /** Every such run can be continued until it is nobody's turn, so the outcome below is always reached. */
  lemma {:induction false} EveryRunCompletes<T>(s0: State<T>, ls: seq<Label>) returns (all: seq<Label>)
    requires Initial(s0) && Run(s0, ls).Some? && TakesTurns(s0, ls)
    requires forall k :: 0 <= k < |ls| ==> ls[k].Go?
    ensures ls <= all && Run(s0, all).Some? && TakesTurns(s0, all) && Over(Run(s0, all).value)
    ensures forall k :: 0 <= k < |all| ==> all[k].Go?
    decreases 9 * |s0.calls| - |ls|
  {
    hide Step, AtMost;
    all := ls;
    if !Over(Run(s0, ls).value) {
      var i: nat :| MayGo(Run(s0, ls).value, i);
      RunSnoc(s0, ls, Go(i));
      AtMostLonger(s0, ls, i, QueueIsFull);
      AtMostLonger(s0, ls, i, QueueIsEmpty);
      RunsTerminate(s0, ls + [Go(i)]);
      all := EveryRunCompletes(s0, ls + [Go(i)]);
    }
  }

  // ---- The outcome

  lemma GoMovesOne<T>(s: State<T>, i: nat, s0: State<T>)
    requires Accounted(s, s0) && Step(s, Go(i)).Some?
    ensures MovesOne(s, Step(s, Go(i)).value, i)
  {
  }

  lemma {:induction false} RunAccounted<T>(s0: State<T>, ls: seq<Label>)
    requires Initial(s0) && Run(s0, ls).Some?
    requires forall k :: 0 <= k < |ls| ==> ls[k].Go?
    ensures Accounted(Run(s0, ls).value, s0)
  {
    if ls == [] {
      SumZero(s0.calls, PushMade<T>());
      SumZero(s0.calls, PopMade<T>());
    } else {
      var before, i := ls[..|ls| - 1], ls[|ls| - 1].i;
      RunAccounted(s0, before);
      RunSafe(s0, before);
      GoMovesOne(Run(s0, before).value, i, s0);
      AccountedGo(Run(s0, before).value, Step(Run(s0, before).value, Go(i)).value, i, s0);
    }
  }

  /** The owner of the critical section can always move. */
  lemma OwnerMayGo<T>(s: State<T>, q0: seq<T>)
    requires Safe(s, q0) && s.owner.Some?
    ensures MayGo(s, s.owner.value)
  {
  }

  /** When it is nobody's turn the section is free, and whoever has not finished waits or has not begun. */
  lemma OverShape<T>(s: State<T>, q0: seq<T>)
    requires Safe(s, q0) && Over(s)
    ensures s.owner == None
    ensures forall i :: 0 <= i < |s.calls| ==> s.calls[i].phase in {Start, Waiting} || s.calls[i].phase.Done?
  {
    if s.owner.Some? {
      OwnerMayGo(s, q0);
    }
    forall i | 0 <= i < |s.calls| ensures s.calls[i].phase in {Start, Waiting} || s.calls[i].phase.Done? {
      assert !MayGo(s, i);
    }
  }

  function Undone<T>(cond: Cond): Call<T> -> nat {
    (c: Call<T>) => if WaitsOn(c.op) == cond && (c.phase == Start || c.phase == Waiting) then 1 else 0
  }

  /** If a call has not finished, one of its kind waits, and what it waits for is not there. */
  lemma UndoneExhausts<T>(s: State<T>, cond: Cond)
    requires Over(s) && s.owner == None && Announced(s, cond)
    requires forall i :: 0 <= i < |s.calls| ==> s.calls[i].phase in {Start, Waiting} || s.calls[i].phase.Done?
    ensures Sum(s.calls, Undone(cond)) > 0 ==> Avail(s, cond) <= 0
  {
    if Sum(s.calls, Undone(cond)) > 0 {
      var i := SumPositive(s.calls, Undone(cond));
      SomeoneWaits(s, i, cond);
      var j := SumPositive(s.calls, WaitingOn(cond));
      SumZero(s.calls, AboutToSet<T>(cond));
      assert !MayGo(s, j);
    }
  }

  lemma SomeoneWaits<T>(s: State<T>, i: nat, cond: Cond)
    requires Over(s) && s.owner == None && i < |s.calls| && Undone(cond)(s.calls[i]) > 0
    requires forall i :: 0 <= i < |s.calls| ==> s.calls[i].phase in {Start, Waiting} || s.calls[i].phase.Done?
    ensures Sum(s.calls, WaitingOn(cond)) > 0
  {
    if s.calls[i].phase == Start {
      assert !MayGo(s, i);
      var j := SumPositive(s.calls, ActiveOn(cond));
      SumAtLeast(s.calls, j, WaitingOn(cond));
    } else {
      SumAtLeast(s.calls, i, WaitingOn(cond));
    }
  }

  lemma OverCounts<T>(s: State<T>)
    requires forall i :: 0 <= i < |s.calls| ==> s.calls[i].phase in {Start, Waiting, Done(true)}
    ensures Sum(s.calls, PushMade<T>()) + Sum(s.calls, Undone(QueueIsFull)) == Sum(s.calls, PushCall<T>())
    ensures Sum(s.calls, PopMade<T>()) + Sum(s.calls, Undone(QueueIsEmpty)) == Sum(s.calls, PopCall<T>())
  {
    SumSplit(s.calls, PushMade<T>(), Undone(QueueIsFull), PushCall<T>());
    SumSplit(s.calls, PopMade<T>(), Undone(QueueIsEmpty), PopCall<T>());
  }

  /**
   The outcome of the event branch with at most one push and one pop in progress at a time, when it is nobody's
   turn any more: the same counts as in the condition-variable branch, under the same exact condition.
   */
  lemma TurnsOutcome<T>(s0: State<T>, ls: seq<Label>, s: State<T>)
    requires Initial(s0) && Run(s0, ls) == Some(s) && TakesTurns(s0, ls) && Over(s)
    requires forall k :: 0 <= k < |ls| ==> ls[k].Go?
    ensures
      var p, c := Sum(s0.calls, PushCall<T>()), Sum(s0.calls, PopCall<T>());
      AllThatFit(s0.maxSize, |s0.q|, p, c, Sum(s.calls, PushMade<T>()), Sum(s.calls, PopMade<T>()))
      <==> s0.maxSize >= 1 || p == 0 || c == 0
    ensures s0.maxSize == 0 ==> Sum(s.calls, PushMade<T>()) == 0 && Sum(s.calls, PopMade<T>()) == 0
  {
    hide Step, Run, Over, Announced, AtMost, Linearized, Accounted, AllThatFit;
    RunSafe(s0, ls);
    RunAccounted(s0, ls);
    RunAnnounced(s0, ls, QueueIsFull);
    RunAnnounced(s0, ls, QueueIsEmpty);
    OverShape(s, s0.q);
    UndoneExhausts(s, QueueIsFull);
    UndoneExhausts(s, QueueIsEmpty);
    OverOutcome(s0, s);
  }

  lemma OverOutcome<T>(s0: State<T>, s: State<T>)
    requires |s0.q| <= s0.maxSize && s.maxSize == s0.maxSize && |s.q| <= s.maxSize && Accounted(s, s0)
    requires forall i :: 0 <= i < |s.calls| ==> s.calls[i].phase in {Start, Waiting} || s.calls[i].phase.Done?
    requires forall cond :: Sum(s.calls, Undone(cond)) > 0 ==> Avail(s, cond) <= 0
    ensures
      var p, c := Sum(s0.calls, PushCall<T>()), Sum(s0.calls, PopCall<T>());
      AllThatFit(s0.maxSize, |s0.q|, p, c, Sum(s.calls, PushMade<T>()), Sum(s.calls, PopMade<T>()))
      <==> s0.maxSize >= 1 || p == 0 || c == 0
    ensures s0.maxSize == 0 ==> Sum(s.calls, PushMade<T>()) == 0 && Sum(s.calls, PopMade<T>()) == 0
  {
    OverCounts(s);
    OutcomeArithmetic(s0.maxSize, |s0.q|, |s.q|, Sum(s.calls, PushMade<T>()), Sum(s.calls, PopMade<T>()),
                      Sum(s.calls, Undone(QueueIsFull)), Sum(s.calls, Undone(QueueIsEmpty)));
  }
}
