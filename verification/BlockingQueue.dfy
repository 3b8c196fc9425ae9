/**
 The class blocking_queue and its two operations, as loops over mutable fields, in both branches of the
 preprocessor. The other threads appear as `env`: what they do at each point where the operation can be
 held up, namely while it waits for the critical section and while it sleeps. Each operation is proved to
 be a run of the monitor in which the calling thread takes only its own steps.
 */
module BlockingQueue {
  import opened Prelude
  import opened QueueModel
  import CondVar = CondVarQueue
  import Event = EventQueue

  /** Labels under which thread `me` itself moves. */
  predicate MovesOf(l: Label, me: nat) {
    (l.Go? || l.Signal?) && l.i == me
  }

  /** While `me` does not move, its call changes only by being released from its wait. */
  predicate HeldUp<T(==)>(before: Call<T>, after: Call<T>) {
    && after == before.(phase := after.phase)
    && (before.phase == Asleep ==>
        after.phase == Asleep || after.phase == Woken || (after.phase == TimedOut && !before.infinite))
    && (before.phase == Waiting ==>
        after.phase == Waiting || after.phase == Test || (after.phase == Leave(false) && !before.infinite))
    && (before.phase != Asleep && before.phase != Waiting ==> after.phase == before.phase)
  }

  /** What the caller of an operation learns; None while the operation is still held up. */
  predicate Reports<T>(c: Call<T>, result: Option<bool>) {
    match result
    case Some(ok) => c.phase == Done(ok)
    case None => !c.phase.Done?
  }

  /** Labels of `me` in a run. */
  function OwnMove(me: nat): Label -> nat {
    (l: Label) => if MovesOf(l, me) then 1 else 0
  }

  /** How many steps call `me` itself takes in a run. */
  function Moves(ran: seq<Label>, me: nat): nat {
    Sum(ran, OwnMove(me))
  }

  lemma MovesNext(ran: seq<Label>, l: Label, me: nat)
    ensures Moves(ran + [l], me) == Moves(ran, me) + OwnMove(me)(l)
  {
    SumConcat(ran, [l], OwnMove(me));
    SumOne(l, OwnMove(me));
  }

  lemma MovesOfOthers(ran: seq<Label>, others: seq<Label>, me: nat)
    requires forall k :: 0 <= k < |others| ==> !MovesOf(others[k], me)
    ensures Moves(ran + others, me) == Moves(ran, me)
  {
    SumConcat(ran, others, OwnMove(me));
    SumZero(others, OwnMove(me));
  }

  /** What the others do at the `k`-th point where the call can be held up; nothing, once `env` is used up. */
  function TurnOf(env: seq<seq<Label>>, k: nat): seq<Label> {
    if k < |env| then env[k] else []
  }

  /** The two branches of the preprocessor: condition variables, or events. */
  datatype Branch = Vista | Xp

  function StepIn<T(==)>(b: Branch, s: State<T>, l: Label): Option<State<T>> {
    if b == Vista then CondVar.Step(s, l) else Event.Step(s, l)
  }

  function RunIn<T(==)>(b: Branch, s: State<T>, ls: seq<Label>): Option<State<T>> {
    if b == Vista then CondVar.Run(s, ls) else Event.Run(s, ls)
  }

  lemma RunInNext<T>(b: Branch, s: State<T>, ls: seq<Label>, l: Label)
    requires RunIn(b, s, ls).Some?
    ensures RunIn(b, s, ls + [l]) == StepIn(b, RunIn(b, s, ls).value, l)
  {
    if b == Vista {
      CondVar.RunSnoc(s, ls, l);
    } else {
      Event.RunSnoc(s, ls, l);
    }
  }

  /** Whether a label can take effect without being a step of `me`. */
  predicate Possible<T(==)>(b: Branch, s: State<T>, l: Label, me: nat) {
    !MovesOf(l, me) && StepIn(b, s, l).Some?
  }

  /** The labels of `env` one after the other, without those that are not possible or are steps of `me`. */
  function Taken<T(==)>(b: Branch, s: State<T>, env: seq<Label>, me: nat): (ls: seq<Label>)
    ensures forall k :: 0 <= k < |ls| ==> !MovesOf(ls[k], me)
    ensures RunIn(b, s, ls) == Some(Meanwhile(b, s, env, me))
    decreases |env|, 1
  {
    if env == [] then []
    else
      var n := |env| - 1;
      var before := Taken(b, s, env[..n], me);
      if Possible(b, Meanwhile(b, s, env[..n], me), env[n], me) then
        RunInNext(b, s, before, env[n]);
        before + [env[n]]
      else before
  }

  /** Where they lead. */
  function Meanwhile<T(==)>(b: Branch, s: State<T>, env: seq<Label>, me: nat): State<T>
    decreases |env|, 0
  {
    if env == [] then s
    else
      var n := |env| - 1;
      var t := Meanwhile(b, s, env[..n], me);
      if Possible(b, t, env[n], me) then StepIn(b, t, env[n]).value else t
  }

  lemma RunInFront<T>(b: Branch, s: State<T>, ls: seq<Label>)
    requires ls != [] && RunIn(b, s, ls).Some?
    ensures RunIn(b, s, ls[..|ls| - 1]).Some?
    ensures RunIn(b, s, ls) == StepIn(b, RunIn(b, s, ls[..|ls| - 1]).value, ls[|ls| - 1])
  {
  }

  /** Whatever run the others can take, they take when `env` says so. */
  lemma {:induction false} MeanwhileFollows<T>(b: Branch, s: State<T>, env: seq<Label>, me: nat)
    requires RunIn(b, s, env).Some? && forall k :: 0 <= k < |env| ==> !MovesOf(env[k], me)
    ensures Meanwhile(b, s, env, me) == RunIn(b, s, env).value && Taken(b, s, env, me) == env
  {
    hide RunIn, StepIn;
    if env != [] {
      RunInFront(b, s, env);
      MeanwhileFollows(b, s, env[..|env| - 1], me);
    } else {
      assert RunIn(b, s, Taken(b, s, env, me)) == Some(Meanwhile(b, s, env, me));
    }
  }

  /** What the others bring about before the call `me` enters the section. */
  function First<T(==)>(b: Branch, s0: State<T>, env: seq<seq<Label>>, me: nat): State<T> {
    Meanwhile(b, s0, TurnOf(env, 0), me)
  }

  /** What they have brought about when the call that just fell asleep looks again. */
  function AfterSleep<T(==)>(s: State<T>, me: nat, env: seq<Label>): State<T>
    requires me < |s.calls|
  {
    Meanwhile(Vista, At(s, me, Asleep).(owner := None), env, me)
  }

  /**
   While `me` sleeps it has been given its whole turn: `ran` is what came before, and then all that the others do
   in that turn. The call takes two steps between falling asleep and falling asleep again, and one before.
   */
  ghost predicate TurnGiven<T>(s0: State<T>, before: seq<Label>, env: seq<seq<Label>>, ran: seq<Label>, me: nat) {
    && CondVar.Run(s0, before).Some?
    && me < |CondVar.Run(s0, before).value.calls| && CondVar.Run(s0, before).value.calls[me].phase == Asleep
    && ran == before + Taken(Vista, CondVar.Run(s0, before).value, TurnOf(env, Moves(before, me) / 2), me)
  }

  /**
   The same in the event branch, for a call that waits for its event: it takes four steps between one wait and the
   next, and three before the first.
   */
  ghost predicate TurnGivenXp<T>(s0: State<T>, before: seq<Label>, env: seq<seq<Label>>, ran: seq<Label>, me: nat) {
    && Event.Run(s0, before).Some?
    && me < |Event.Run(s0, before).value.calls| && Event.Run(s0, before).value.calls[me].phase == Waiting
    && ran == before + Taken(Xp, Event.Run(s0, before).value, TurnOf(env, (Moves(before, me) + 1) / 4), me)
  }

  ghost predicate WaitedTurn<T>(s0: State<T>, env: seq<seq<Label>>, ran: seq<Label>, me: nat) {
    exists before :: TurnGivenXp(s0, before, env, ran, me)
  }

  /** What the others have brought about when the call that just began to wait looks again. */
  function AfterWait<T(==)>(s: State<T>, me: nat, env: seq<Label>): State<T>
    requires me < |s.calls|
  {
    Meanwhile(Xp, At(s, me, Waiting).(owner := None), env, me)
  }

  /** A wait of the call `me` has failed. */
  predicate WaitFailed(ran: seq<Label>, me: nat) {
    WaitFails(me) in ran
  }

  /** A step of another call, or of the system, does to the call `me` at most what releases it from its wait. */
  lemma OtherMoves<T>(s: State<T>, l: Label, me: nat)
    requires CondVar.Step(s, l).Some? && !MovesOf(l, me) && me < |s.calls| == |CondVar.Step(s, l).value.calls|
    ensures HeldUp(s.calls[me], CondVar.Step(s, l).value.calls[me])
    ensures s.owner != Some(me) ==> CondVar.Step(s, l).value.owner != Some(me)
  {
  }

  lemma OtherMovesXp<T>(s: State<T>, l: Label, me: nat)
    requires Event.Step(s, l).Some? && !MovesOf(l, me) && me < |s.calls| == |Event.Step(s, l).value.calls|
    ensures HeldUp(s.calls[me], Event.Step(s, l).value.calls[me])
    ensures s.owner != Some(me) ==> Event.Step(s, l).value.owner != Some(me)
    ensures l == WaitFails(me) <==> s.calls[me].phase == Waiting && Event.Step(s, l).value.calls[me].phase == Test
    ensures s.calls[me].phase != Waiting ==> Event.Step(s, l).value.calls[me].phase == s.calls[me].phase
  {
  }

  lemma StaysHeldUp<T>(c: Call<T>)
    ensures HeldUp(c, c)
  {
  }

  lemma StillHeldUp<T>(a: Call<T>, b: Call<T>, c: Call<T>)
    requires HeldUp(a, b) && HeldUp(b, c)
    ensures HeldUp(a, c)
  {
  }

  lemma SignalStep<T>(s: State<T>, i: nat, j: nat)
    requires i < |s.calls| && j < |s.calls| && s.calls[i].phase == Wake
    requires s.calls[j].phase == Asleep && WaitsOn(s.calls[j].op) == Wakes(s.calls[i].op)
    ensures CondVar.Step(s, Signal(i, j)) == Some(At(At(s, j, Woken), i, Leave(true)))
  {
  }

  lemma UnheardStep<T>(s: State<T>, i: nat)
    requires i < |s.calls| && s.calls[i].phase == Wake && CondVar.Sleepers(s, Wakes(s.calls[i].op)) == 0
    ensures CondVar.Step(s, Go(i)) == Some(At(s, i, Leave(true)))
  {
  }

  /** A call that fell asleep and is not back in the section has been given a whole turn. */
  lemma StillAsleep<T>(
    s0: State<T>, s: State<T>, ran: seq<Label>, env: seq<seq<Label>>, turn: nat, me: nat, after: seq<Label>
  )
    requires me < |s.calls| && CondVar.Run(s0, ran + [Go(me)]) == Some(At(s, me, Asleep).(owner := None))
    requires Moves(ran + [Go(me)], me) == 2 * turn
    requires after == ran + [Go(me)] + Taken(Vista, At(s, me, Asleep).(owner := None), TurnOf(env, turn), me)
    ensures TurnGiven(s0, ran + [Go(me)], env, after, me)
  {
    hide CondVar.Run, Taken, Moves;
  }

  /** The same for a call that waits for its event; once `env` is used up its turn changes nothing. */
  lemma StillWaiting<T>(
    s0: State<T>, s: State<T>, ran: seq<Label>, env: seq<seq<Label>>, turn: nat, me: nat, after: seq<Label>
  )
    requires me < |s.calls|
    requires Event.Run(s0, ran + [Go(me)] + [Go(me)]) == Some(At(s, me, Waiting).(owner := None))
    requires turn > 0 && Moves(ran + [Go(me)] + [Go(me)], me) == 4 * turn - 1
    requires after == ran + [Go(me)] + [Go(me)] + Taken(Xp, At(s, me, Waiting).(owner := None), TurnOf(env, turn), me)
    ensures TurnGivenXp(s0, ran + [Go(me)] + [Go(me)], env, after, me)
    ensures turn >= |env| ==> AfterWait(s, me, TurnOf(env, turn)) == At(s, me, Waiting).(owner := None)
  {
    hide Event.Run, Taken, Moves;
  }

  class BlockingQueue<T> {
    const maxSize: nat
    var q: seq<T>
    var owner: Option<nat>
    var signalled: set<Cond>
    var calls: seq<Call<T>>
    var log: seq<QueueModel.Event<T>>

    function Abs(): State<T>
      reads this
    {
      State(maxSize, q, owner, signalled, calls, log)
    }

    /** The deque starts with `maxSize` default-constructed items. */
    constructor (maxSize: nat, filler: T, calls: seq<Call<T>>)
      requires forall i :: 0 <= i < |calls| ==> calls[i].phase == Start && calls[i].got == None
      ensures Initial(Abs())
      ensures this.maxSize == maxSize && this.calls == calls
      ensures |q| == maxSize && forall k :: 0 <= k < |q| ==> q[k] == filler
    {
      this.maxSize := maxSize;
      this.q := seq(maxSize, _ => filler);
      this.owner := None;
      this.signalled := {};
      this.calls := calls;
      this.log := [];
    }

    // ---- Windows Vista and later: condition variables

    /** The other threads run: labels of `env` that are possible and are not moves of `me` take effect. */
    method OthersRun(me: nat, env: seq<Label>) returns (ran: seq<Label>)
      requires me < |calls|
      modifies this
      ensures CondVar.Run(old(Abs()), ran) == Some(Abs())
      ensures forall k :: 0 <= k < |ran| ==> !MovesOf(ran[k], me)
      ensures me < |calls|
      ensures HeldUp(old(calls[me]), calls[me])
      ensures old(owner) != Some(me) ==> owner != Some(me)
      ensures Abs() == Meanwhile(Vista, old(Abs()), env, me) && ran == Taken(Vista, old(Abs()), env, me)
    {
      StaysHeldUp(calls[me]);
      ran := [];
      ghost var s0 := Abs();
      assert CondVar.Run(s0, ran) == Some(Abs());
      hide CondVar.Step, CondVar.Run, HeldUp;
      for k := 0 to |env|
        invariant CondVar.Run(s0, ran) == Some(Abs())
        invariant forall k :: 0 <= k < |ran| ==> !MovesOf(ran[k], me)
        invariant me < |calls| && HeldUp(s0.calls[me], calls[me])
        invariant s0.owner != Some(me) ==> owner != Some(me)
        invariant Abs() == Meanwhile(Vista, s0, env[..k], me) && ran == Taken(Vista, s0, env[..k], me)
      {
        assert env[..k + 1][..k] == env[..k];
        var next := CondVar.Step(Abs(), env[k]);
        if !MovesOf(env[k], me) && next.Some? {
          CondVar.StepShape(Abs(), env[k]);
          OtherMoves(Abs(), env[k], me);
          StillHeldUp(s0.calls[me], calls[me], next.value.calls[me]);
          CondVar.RunSnoc(s0, ran, env[k]);
          ran := ran + [env[k]];
          Become(next.value);
        }
      }
      assert env[..|env|] == env;
    }

    method Become(s: State<T>)
      requires s.maxSize == maxSize
      modifies this
      ensures Abs() == s
    {
      q, owner, signalled, calls, log := s.q, s.owner, s.signalled, s.calls, s.log;
    }

    /** The calling thread moves to its next statement. */
    method Advance(me: nat, p: Phase)
      requires me < |calls|
      modifies this`calls
      ensures Abs() == At(old(Abs()), me, p)
    {
      calls := calls[me := calls[me].(phase := p)];
    }

    /** The run `ran` leads from `s0` to where the monitor is now. */
    ghost predicate Reached(s0: State<T>, ran: seq<Label>)
      reads this
    {
      CondVar.Run(s0, ran) == Some(Abs())
    }

    /** EnterCriticalSection, in the constructor of sync_t and at the end of SleepConditionVariableCS. */
    method EnterSection(me: nat, ghost s0: State<T>, ran: seq<Label>) returns (entered: bool, ran': seq<Label>)
      requires me < |calls| && calls[me].phase in {Start, Woken, TimedOut} && Reached(s0, ran)
      modifies this`owner, this`calls
      ensures Reached(s0, ran')
      ensures entered <==> old(owner) == None
      ensures !entered ==> Abs() == old(Abs()) && ran' == ran
      ensures entered ==> Moves(ran', me) == Moves(ran, me) + 1
      ensures entered ==> Abs() == At(old(Abs()), me, if old(calls[me]).phase == TimedOut then Leave(false) else Test)
                                   .(owner := Some(me))
    {
      entered, ran' := owner == None, ran;
      if entered {
        CondVar.RunSnoc(s0, ran, Go(me));
        owner := Some(me);
        Advance(me, if calls[me].phase == TimedOut then Leave(false) else Test);
        MovesNext(ran, Go(me), me);
        ran' := ran + [Go(me)];
      }
    }

    /** LeaveCriticalSection, in the destructor of sync_t. */
    method LeaveSection(me: nat, ghost s0: State<T>, ran: seq<Label>) returns (ran': seq<Label>)
      requires me < |calls| && calls[me].phase.Leave? && owner == Some(me) && Reached(s0, ran)
      modifies this`owner, this`calls
      ensures Reached(s0, ran')
      ensures Abs() == At(old(Abs()), me, Done(old(calls[me]).phase.ok)).(owner := None)
    {
      CondVar.RunSnoc(s0, ran, Go(me));
      owner := None;
      Advance(me, Done(calls[me].phase.ok));
      ran' := ran + [Go(me)];
    }

    /** The first half of SleepConditionVariableCS: release the critical section and fall asleep. */
    method FallAsleep(me: nat, ghost s0: State<T>, ran: seq<Label>) returns (ran': seq<Label>)
      requires me < |calls| && calls[me].phase == Test && owner == Some(me) && Blocked(Abs(), calls[me].op)
      requires Reached(s0, ran)
      modifies this`owner, this`calls
      ensures Reached(s0, ran') && ran' == ran + [Go(me)] && Moves(ran', me) == Moves(ran, me) + 1
      ensures Abs() == At(old(Abs()), me, Asleep).(owner := None)
    {
      CondVar.RunSnoc(s0, ran, Go(me));
      owner := None;
      Advance(me, Asleep);
      MovesNext(ran, Go(me), me);
      ran' := ran + [Go(me)];
    }

    /** q_.push_back(item), once the loop is left. */
    method AppendItem(me: nat, ghost s0: State<T>, ran: seq<Label>) returns (ran': seq<Label>)
      requires me < |calls| && calls[me].phase == Test && calls[me].op.Push? && |q| < maxSize && Reached(s0, ran)
      modifies this`q, this`calls, this`log
      ensures Reached(s0, ran')
      ensures q == old(q) + [old(calls[me]).op.item] && log == old(log) + [Pushed(me, old(calls[me]).op.item)]
      ensures calls == old(calls)[me := old(calls[me]).(phase := Wake)]
    {
      CondVar.RunSnoc(s0, ran, Go(me));
      Advance(me, Transfer);
      CondVar.RunSnoc(s0, ran + [Go(me)], Go(me));
      q := q + [calls[me].op.item];
      log := log + [Pushed(me, calls[me].op.item)];
      Advance(me, Wake);
      ran' := ran + [Go(me)] + [Go(me)];
    }

    /** item = q_.front(); q_.pop_front(), once the loop is left. */
    method TakeItem(me: nat, ghost s0: State<T>, ran: seq<Label>) returns (item: T, ran': seq<Label>)
      requires me < |calls| && calls[me].phase == Test && calls[me].op.Pop? && |q| > 0 && Reached(s0, ran)
      modifies this`q, this`calls, this`log
      ensures Reached(s0, ran')
      ensures old(q) == [item] + q && log == old(log) + [Popped(me, item)]
      ensures calls == old(calls)[me := old(calls[me]).(phase := Wake, got := Some(item))]
    {
      CondVar.RunSnoc(s0, ran, Go(me));
      Advance(me, Transfer);
      CondVar.RunSnoc(s0, ran + [Go(me)], Go(me));
      item := q[0];
      q := q[1..];
      log := log + [Popped(me, item)];
      calls := calls[me := calls[me].(phase := Wake, got := Some(item))];
      ran' := ran + [Go(me)] + [Go(me)];
    }

    /** WakeConditionVariable: release one sleeper, if there is one; the system decides which. */
    method WakeOne(me: nat, pick: nat, ghost s0: State<T>, ran: seq<Label>) returns (ran': seq<Label>)
      requires me < |calls| && calls[me].phase == Wake && Reached(s0, ran)
      modifies this`calls
      ensures Reached(s0, ran')
      ensures |calls| == |old(calls)| && calls[me] == old(calls[me]).(phase := Leave(true))
      ensures forall j :: 0 <= j < |calls| && j != me && calls[j] != old(calls[j]) ==>
        && old(calls[j]).phase == Asleep && WaitsOn(old(calls[j]).op) == Wakes(old(calls[me]).op)
        && calls[j] == old(calls[j]).(phase := Woken)
      ensures CondVar.Sleepers(old(Abs()), Wakes(old(calls[me]).op)) > 0 ==>
        CondVar.Sleepers(Abs(), Wakes(old(calls[me]).op)) == CondVar.Sleepers(old(Abs()), Wakes(old(calls[me]).op)) - 1
    {
      hide CondVar.Run, CondVar.Step;
      var cond := Wakes(calls[me].op);
      var sleeper := ChooseSleeper(cond, pick);
      if sleeper.Some? {
        CondVar.RunSnoc(s0, ran, Signal(me, sleeper.value));
        SignalStep(Abs(), me, sleeper.value);
        CondVar.CountsAt(Abs(), sleeper.value, calls[sleeper.value].(phase := Woken), cond);
        ran' := ran + [Signal(me, sleeper.value)];
        Advance(sleeper.value, Woken);
      } else {
        CondVar.RunSnoc(s0, ran, Go(me));
        UnheardStep(Abs(), me);
        ran' := ran + [Go(me)];
      }
      CondVar.CountsAt(Abs(), me, calls[me].(phase := Leave(true)), cond);
      Advance(me, Leave(true));
    }

    predicate IsSleeper(j: nat, cond: Cond)
      reads this
    {
      j < |calls| && calls[j].phase == Asleep && WaitsOn(calls[j].op) == cond
    }

    method ChooseSleeper(cond: Cond, pick: nat) returns (sleeper: Option<nat>)
      ensures sleeper.Some? ==> IsSleeper(sleeper.value, cond)
      ensures sleeper.None? <==> CondVar.Sleepers(Abs(), cond) == 0
    {
      sleeper := None;
      for j := 0 to |calls|
        invariant sleeper.None? ==> forall k :: 0 <= k < j ==> CondVar.AsleepOn<T>(cond)(calls[k]) == 0
        invariant sleeper.Some? ==> IsSleeper(sleeper.value, cond)
      {
        if calls[j].phase == Asleep && WaitsOn(calls[j].op) == cond && (sleeper == None || j <= pick) {
          sleeper := Some(j);
        }
      }
      if sleeper.Some? {
        SumAtLeast(calls, sleeper.value, CondVar.AsleepOn(cond));
      } else {
        SumZero(calls, CondVar.AsleepOn(cond));
      }
    }

    /**
     The wait of a blocked call, which owns the section. With the section free the call goes on owning it again if
     it was woken, and gives up, releasing it, if its time was over; otherwise it is held up.
     */
    method TrySigWait(me: nat, env: seq<Label>, ghost s0: State<T>, ran: seq<Label>)
      returns (result: Option<bool>, done: bool, ran': seq<Label>)
      requires me < |calls| && calls[me].phase == Test && owner == Some(me) && Blocked(Abs(), calls[me].op)
      requires Reached(s0, ran)
      modifies this
      ensures Reached(s0, ran') && me < |calls|
      ensures calls[me] == old(calls[me]).(phase := calls[me].phase)
      ensures done ==> Reports(calls[me], result) && result != Some(true) && (calls[me].infinite ==> result == None)
      ensures !done ==> calls[me].phase == Test && owner == Some(me) && Moves(ran', me) == Moves(ran, me) + 2
      ensures done && result == None ==>
        && calls[me].phase in {Asleep, Woken, TimedOut} && owner != Some(me)
        && (calls[me].phase != Asleep ==> owner.Some?)
        && ran' == ran + [Go(me)] + Taken(Vista, old(At(Abs(), me, Asleep).(owner := None)), env, me)
      ensures result == Some(false) ==> owner == None
      ensures var t := AfterSleep(old(Abs()), me, env);
        && me < |t.calls|
        && (done && result == None <==> t.calls[me].phase == Asleep || t.owner.Some?)
        && (result == Some(false) <==> t.calls[me].phase == TimedOut && t.owner == None)
      ensures env == [] ==> done && result == None
    {
      ran' := FallAsleep(me, s0, ran);
      var meanwhile := OthersRun(me, env);
      CondVar.RunConcat(s0, ran', meanwhile);
      MovesOfOthers(ran', meanwhile, me);
      ran' := ran' + meanwhile;
      result, done := None, true;
      if calls[me].phase == Asleep {
        return;
      }
      var entered;
      entered, ran' := EnterSection(me, s0, ran');
      if !entered {
        return;
      }
      if calls[me].phase == Leave(false) {
        ran' := LeaveSection(me, s0, ran');
        result := Some(false);
        return;
      }
      done := false;
    }

    /**
     The call is held up: for the section, before it began; or asleep, after all that the others do in that turn;
     or released from its wait, for the section again.
     */
    ghost predicate HeldUpHere(me: nat, s0: State<T>, env: seq<seq<Label>>, ran: seq<Label>)
      reads this
    {
      && me < |calls| && calls[me].phase in {Start, Asleep, Woken, TimedOut}
      && (calls[me].phase != Asleep ==> owner.Some?)
      && if calls[me].phase == Start then ran == Taken(Vista, s0, TurnOf(env, 0), me)
         else owner != Some(me) && exists before :: TurnGiven(s0, before, env, ran, me)
    }

    /** EnterCriticalSection at the beginning of a call, after what the others do before. */
    method BeginCall(me: nat, env: seq<seq<Label>>) returns (entered: bool, ran: seq<Label>)
      requires me < |calls| && calls[me].phase == Start
      modifies this
      ensures Reached(old(Abs()), ran) && me < |calls|
      ensures entered <==> First(Vista, old(Abs()), env, me).owner == None
      ensures entered ==> calls[me] == old(calls[me]).(phase := Test) && owner == Some(me) && Moves(ran, me) == 1
      ensures !entered ==> calls[me] == old(calls[me]) && HeldUpHere(me, old(Abs()), env, ran)
      ensures q == First(Vista, old(Abs()), env, me).q
    {
      ran := OthersRun(me, TurnOf(env, 0));
      MovesOfOthers([], ran, me);
      assert [] + ran == ran;
      ghost var first := ran;
      entered, ran := EnterSection(me, old(Abs()), ran);
      hide CondVar.Run, Moves, Taken, Meanwhile;
    }

    /** The wait of a blocked call in turn `turn` of what the others do. */
    method WaitTurn(me: nat, env: seq<seq<Label>>, turn: nat, ghost s0: State<T>, ran: seq<Label>)
      returns (result: Option<bool>, done: bool, ran': seq<Label>)
      requires me < |calls| && calls[me].phase == Test && owner == Some(me) && Blocked(Abs(), calls[me].op)
      requires Reached(s0, ran) && turn > 0 && Moves(ran, me) == 2 * turn - 1
      modifies this
      ensures Reached(s0, ran') && me < |calls|
      ensures calls[me] == old(calls[me]).(phase := calls[me].phase)
      ensures done ==> Reports(calls[me], result) && result != Some(true) && (calls[me].infinite ==> result == None)
      ensures done ==> calls[me].phase != Start && (result == None ==> HeldUpHere(me, s0, env, ran'))
      ensures !done ==> calls[me].phase == Test && owner == Some(me) && Moves(ran', me) == 2 * turn + 1
      ensures !done ==> turn < |env|
    {
      hide CondVar.Run, CondVar.Step, Taken, Meanwhile, Moves, AfterSleep, TurnGiven;
      ghost var s := Abs();
      SleepsFrom(me, s0, ran);
      result, done, ran' := TrySigWait(me, TurnOf(env, turn), s0, ran);
      if done && result == None {
        StillAsleep(s0, s, ran, env, turn, me, ran');
      }
    }

    /** The step of an owner that falls asleep. */
    ghost method SleepsFrom(me: nat, s0: State<T>, ran: seq<Label>)
      requires me < |calls| && calls[me].phase == Test && Blocked(Abs(), calls[me].op) && owner == Some(me)
      requires Reached(s0, ran)
      ensures CondVar.Run(s0, ran + [Go(me)]) == Some(At(Abs(), me, Asleep).(owner := None))
      ensures Moves(ran + [Go(me)], me) == Moves(ran, me) + 1
    {
      hide CondVar.Run;
      CondVar.RunSnoc(s0, ran, Go(me));
      MovesNext(ran, Go(me), me);
    }

    /**
     try_push_back. `env` is what the other threads do before the critical section is entered and during
     each wait; while the call is held up it reports nothing yet.
     */
    method TryPushBack(me: nat, env: seq<seq<Label>>, pick: nat) returns (result: Option<bool>, ran: seq<Label>)
      requires me < |calls| && calls[me].phase == Start && calls[me].op.Push?
      modifies this
      ensures CondVar.Run(old(Abs()), ran) == Some(Abs())
      ensures me < |calls| && Reports(calls[me], result)
      ensures result == None <==> HeldUpHere(me, old(Abs()), env, ran)
      ensures var s := First(Vista, old(Abs()), env, me);
        && (calls[me].phase == Start <==> s.owner.Some?)
        && (s.owner == None && |s.q| < maxSize ==> result == Some(true))
      ensures result == Some(true) ==> LastPushed(me, old(calls[me]).op.item)
      ensures old(calls[me]).infinite ==> result != Some(false)
    {
      ghost var s0 := Abs();
      var entered, done;
      entered, ran := BeginCall(me, env);
      hide CondVar.Run, CondVar.Step, Taken, Meanwhile, TurnGiven, Moves, First;
      if !entered {
        return None, ran;
      }
      var turn := 1;
      while |q| >= maxSize
        invariant Reached(s0, ran)
        invariant me < |calls| && owner == Some(me) && calls[me] == s0.calls[me].(phase := Test)
        invariant turn > 0 && Moves(ran, me) == 2 * turn - 1
        invariant turn > 1 ==> |First(Vista, s0, env, me).q| >= maxSize
        invariant turn == 1 ==> q == First(Vista, s0, env, me).q
        decreases |env| - turn
      {
        result, done, ran := WaitTurn(me, env, turn, s0, ran);
        if done {
          return;
        }
        turn := turn + 1;
      }
      ran := FinishPush(me, pick, s0, ran);
      result := Some(true);
    }

    /** The last effect on the deque is that `me` put `item` at its end. */
    ghost predicate LastPushed(me: nat, item: T)
      reads this
    {
      && log != [] && log[|log| - 1] == Pushed(me, item)
      && q != [] && q[|q| - 1] == item
    }

    /** The last effect on the deque is that `me` took `item` from its front. */
    ghost predicate LastPopped(me: nat, item: T)
      reads this
    {
      log != [] && log[|log| - 1] == Popped(me, item)
    }

    /** What try_push_back does after its loop. */
    method FinishPush(me: nat, pick: nat, ghost s0: State<T>, ran: seq<Label>) returns (ran': seq<Label>)
      requires me < |calls| && calls[me].phase == Test && calls[me].op.Push? && |q| < maxSize && owner == Some(me)
      requires Reached(s0, ran)
      modifies this
      ensures Reached(s0, ran') && me < |calls| && owner == None
      ensures q == old(q) + [old(calls[me]).op.item] && log == old(log) + [Pushed(me, old(calls[me]).op.item)]
      ensures calls[me] == old(calls[me]).(phase := Done(true))
    {
      ran' := AppendItem(me, s0, ran);
      ran' := WakeOne(me, pick, s0, ran');
      ran' := LeaveSection(me, s0, ran');
    }

    /** try_pop_front; the popped item is the out-parameter of the call. */
    method TryPopFront(me: nat, env: seq<seq<Label>>, pick: nat)
      returns (result: Option<bool>, item: Option<T>, ran: seq<Label>)
      requires me < |calls| && calls[me].phase == Start && calls[me].op.Pop? && calls[me].got == None
      modifies this
      ensures CondVar.Run(old(Abs()), ran) == Some(Abs())
      ensures me < |calls| && Reports(calls[me], result)
      ensures result == None <==> HeldUpHere(me, old(Abs()), env, ran)
      ensures var s := First(Vista, old(Abs()), env, me);
        && (calls[me].phase == Start <==> s.owner.Some?)
        && (s.owner == None && |s.q| > 0 ==> result == Some(true) && item == Some(s.q[0]))
      ensures item == calls[me].got && (item.Some? <==> result == Some(true))
      ensures item.Some? ==> LastPopped(me, item.value)
      ensures old(calls[me]).infinite ==> result != Some(false)
    {
      ghost var s0 := Abs();
      result, item := None, None;
      var entered, done;
      entered, ran := BeginCall(me, env);
      hide CondVar.Run, CondVar.Step, Taken, Meanwhile, TurnGiven, Moves, First;
      if !entered {
        return;
      }
      var turn := 1;
      while |q| == 0
        invariant Reached(s0, ran)
        invariant me < |calls| && owner == Some(me) && calls[me] == s0.calls[me].(phase := Test)
        invariant turn > 0 && Moves(ran, me) == 2 * turn - 1
        invariant turn > 1 ==> First(Vista, s0, env, me).q == []
        invariant turn == 1 ==> q == First(Vista, s0, env, me).q
        decreases |env| - turn
      {
        result, done, ran := WaitTurn(me, env, turn, s0, ran);
        if done {
          return;
        }
        turn := turn + 1;
      }
      var front;
      front, ran := FinishPop(me, pick, s0, ran);
      result, item := Some(true), Some(front);
    }

    /** What try_pop_front does after its loop. */
    method FinishPop(me: nat, pick: nat, ghost s0: State<T>, ran: seq<Label>) returns (item: T, ran': seq<Label>)
      requires me < |calls| && calls[me].phase == Test && calls[me].op.Pop? && |q| > 0 && owner == Some(me)
      requires Reached(s0, ran)
      modifies this
      ensures Reached(s0, ran') && me < |calls| && owner == None
      ensures old(q) == [item] + q && log == old(log) + [Popped(me, item)]
      ensures calls[me] == old(calls[me]).(phase := Done(true), got := Some(item))
    {
      item, ran' := TakeItem(me, s0, ran);
      ran' := WakeOne(me, pick, s0, ran');
      ran' := LeaveSection(me, s0, ran');
    }

    /** push_back: try_push_back with INFINITE; it has nothing to report but success. */
    method PushBack(me: nat, env: seq<seq<Label>>, pick: nat) returns (returned: bool, ran: seq<Label>)
      requires me < |calls| && calls[me].phase == Start && calls[me].op.Push? && calls[me].infinite
      modifies this
      ensures CondVar.Run(old(Abs()), ran) == Some(Abs())
      ensures me < |calls| && (returned <==> calls[me].phase == Done(true))
      ensures !returned <==> HeldUpHere(me, old(Abs()), env, ran)
      ensures var s := First(Vista, old(Abs()), env, me); s.owner == None && |s.q| < maxSize ==> returned
      ensures returned ==> LastPushed(me, old(calls[me]).op.item)
    {
      var result;
      result, ran := TryPushBack(me, env, pick);
      returned := result.Some?;
    }

    /** pop_front: try_pop_front with INFINITE; whenever it returns, it has an item. */
    method PopFront(me: nat, env: seq<seq<Label>>, pick: nat) returns (item: Option<T>, ran: seq<Label>)
      requires me < |calls| && calls[me].phase == Start && calls[me].op.Pop? && calls[me].infinite
      requires calls[me].got == None
      modifies this
      ensures CondVar.Run(old(Abs()), ran) == Some(Abs())
      ensures me < |calls| && item == calls[me].got && (item.Some? <==> calls[me].phase == Done(true))
      ensures item == None <==> HeldUpHere(me, old(Abs()), env, ran)
      ensures var s := First(Vista, old(Abs()), env, me); s.owner == None && |s.q| > 0 ==> item == Some(s.q[0])
      ensures item.Some? ==> LastPopped(me, item.value)
    {
      var result;
      result, item, ran := TryPopFront(me, env, pick);
    }

    // ---- Windows 2000 and XP: auto-reset events

    method OthersRunXp(me: nat, env: seq<Label>) returns (ran: seq<Label>)
      requires me < |calls|
      modifies this
      ensures Event.Run(old(Abs()), ran) == Some(Abs())
      ensures forall k :: 0 <= k < |ran| ==> !MovesOf(ran[k], me)
      ensures me < |calls|
      ensures HeldUp(old(calls[me]), calls[me])
      ensures old(owner) != Some(me) ==> owner != Some(me)
      ensures Abs() == Meanwhile(Xp, old(Abs()), env, me) && ran == Taken(Xp, old(Abs()), env, me)
      ensures WaitFailed(ran, me) <==> old(calls[me]).phase == Waiting && calls[me].phase == Test
    {
      ran := [];
      ghost var s0 := Abs();
      StaysHeldUp(calls[me]);
      assert Event.Run(s0, ran) == Some(Abs());
      hide Event.Step, Event.Run;
      for k := 0 to |env|
        invariant Event.Run(s0, ran) == Some(Abs())
        invariant forall k :: 0 <= k < |ran| ==> !MovesOf(ran[k], me)
        invariant me < |calls| && HeldUp(s0.calls[me], calls[me])
        invariant s0.owner != Some(me) ==> owner != Some(me)
        invariant Abs() == Meanwhile(Xp, s0, env[..k], me) && ran == Taken(Xp, s0, env[..k], me)
        invariant WaitFailed(ran, me) <==> s0.calls[me].phase == Waiting && calls[me].phase == Test
      {
        assert env[..k + 1][..k] == env[..k];
        var next := Event.Step(Abs(), env[k]);
        if !MovesOf(env[k], me) && next.Some? {
          Event.StepShape(Abs(), env[k]);
          OtherMovesXp(Abs(), env[k], me);
          StillHeldUp(s0.calls[me], calls[me], next.value.calls[me]);
          Event.RunSnoc(s0, ran, env[k]);
          ran := ran + [env[k]];
          Become(next.value);
        }
      }
      assert env[..|env|] == env;
    }

    ghost predicate ReachedXp(s0: State<T>, ran: seq<Label>)
      reads this
    {
      Event.Run(s0, ran) == Some(Abs())
    }

    /**
     What the return statement of the event branch yields; None while the call is held up. The call may have
     returned at its destructor, without the critical section, which then has no defined effect.
     */
    ghost predicate ReportsXp(me: nat, result: Option<bool>)
      reads this
      requires me < |calls|
    {
      match result
      case Some(ok) => calls[me].phase == Done(ok) || (calls[me].phase == Leave(ok) && owner != Some(me))
      case None => !calls[me].phase.Done? && !calls[me].phase.Leave?
    }

    method EnterSectionXp(me: nat, ghost s0: State<T>, ran: seq<Label>) returns (entered: bool, ran': seq<Label>)
      requires me < |calls| && calls[me].phase in {Start, Woken} && ReachedXp(s0, ran)
      modifies this`owner, this`calls
      ensures ReachedXp(s0, ran') && (WaitFailed(ran', me) <==> WaitFailed(ran, me))
      ensures entered <==> old(owner) == None
      ensures !entered ==> Abs() == old(Abs()) && ran' == ran
      ensures entered ==> Moves(ran', me) == Moves(ran, me) + 1
      ensures entered ==> Abs() == At(old(Abs()), me, Test).(owner := Some(me))
    {
      entered, ran' := owner == None, ran;
      if entered {
        Event.RunSnoc(s0, ran, Go(me));
        owner := Some(me);
        Advance(me, Test);
        MovesNext(ran, Go(me), me);
        ran' := ran + [Go(me)];
      }
    }

    /**
     LeaveCriticalSection; `left` is false when the caller does not own the section, where the effect is
     undefined.
     */
    method LeaveSectionXp(me: nat, ghost s0: State<T>, ran: seq<Label>) returns (left: bool, ran': seq<Label>)
      requires me < |calls| && (calls[me].phase.Leave? || calls[me].phase == Unlock) && ReachedXp(s0, ran)
      modifies this`owner, this`calls
      ensures ReachedXp(s0, ran') && (WaitFailed(ran', me) <==> WaitFailed(ran, me))
      ensures left <==> old(owner) == Some(me)
      ensures !left ==> Abs() == old(Abs()) && ran' == ran
      ensures left ==> ran' == ran + [Go(me)]
      ensures left ==> Abs() == At(old(Abs()), me,
                                   if old(calls[me]).phase == Unlock then Waiting else Done(old(calls[me]).phase.ok))
                                .(owner := None)
    {
      left, ran' := owner == Some(me), ran;
      if left {
        Event.RunSnoc(s0, ran, Go(me));
        owner := None;
        Advance(me, if calls[me].phase == Unlock then Waiting else Done(calls[me].phase.ok));
        ran' := ran + [Go(me)];
      }
    }

    /** LeaveCriticalSection before the wait, and what the others do meanwhile. */
    method GoWaitXp(me: nat, env: seq<Label>, ghost s0: State<T>, ran: seq<Label>)
      returns (left: bool, ran': seq<Label>)
      requires me < |calls| && calls[me].phase == Test && Blocked(Abs(), calls[me].op) && ReachedXp(s0, ran)
      modifies this
      ensures ReachedXp(s0, ran') && me < |calls|
      ensures calls[me] == old(calls[me]).(phase := calls[me].phase)
      ensures owner != Some(me) && (left <==> old(owner) == Some(me))
      ensures left ==> calls[me].phase in {Waiting, Test, Leave(false)}
      ensures left ==> Abs() == AfterWait(old(Abs()), me, env)
      ensures left ==> Moves(ran', me) == Moves(ran, me) + 2
      ensures left ==>
        ran' == ran + [Go(me)] + [Go(me)] + Taken(Xp, old(At(Abs(), me, Waiting).(owner := None)), env, me)
      ensures !left ==> calls[me].phase == Unlock && Blocked(Abs(), calls[me].op)
      ensures calls[me].phase == Leave(false) ==> !calls[me].infinite
      ensures WaitFailed(ran', me) <==> WaitFailed(ran, me) || calls[me].phase == Test
    {
      Event.RunSnoc(s0, ran, Go(me));
      MovesNext(ran, Go(me), me);
      Advance(me, Unlock);
      ran' := ran + [Go(me)];
      left, ran' := LeaveSectionXp(me, s0, ran');
      if left {
        MovesNext(ran + [Go(me)], Go(me), me);
        assert Abs() == old(At(Abs(), me, Waiting).(owner := None));
        var meanwhile := OthersRunXp(me, env);
        Event.RunConcat(s0, ran', meanwhile);
        MovesOfOthers(ran', meanwhile, me);
        ran' := ran' + meanwhile;
      }
    }

    /** WAIT_OBJECT_0: the event is consumed and the section entered again. */
    method SignalledXp(me: nat, ghost s0: State<T>, ran: seq<Label>) returns (done: bool, ran': seq<Label>)
      requires me < |calls| && calls[me].phase == Waiting && ReachedXp(s0, ran)
      modifies this
      ensures ReachedXp(s0, ran') && me < |calls| && (WaitFailed(ran', me) <==> WaitFailed(ran, me))
      ensures calls[me] == old(calls[me]).(phase := calls[me].phase)
      ensures WaitsOn(calls[me].op) in old(signalled) ==> signalled == old(signalled) - {WaitsOn(calls[me].op)}
      ensures WaitsOn(calls[me].op) !in old(signalled) ==> calls[me].phase == Waiting && signalled == old(signalled)
      ensures !done <==> WaitsOn(calls[me].op) in old(signalled) && old(owner) == None
      ensures !done ==> calls[me].phase == Test && owner == Some(me) && Moves(ran', me) == Moves(ran, me) + 2
      ensures done ==> owner == old(owner)
      ensures done && WaitsOn(calls[me].op) in old(signalled) ==> calls[me].phase == Woken && ran' == ran + [Go(me)]
      ensures done && WaitsOn(calls[me].op) !in old(signalled) ==> calls[me].phase == Waiting && ran' == ran
    {
      done, ran' := true, ran;
      if WaitsOn(calls[me].op) in signalled {
        Event.RunSnoc(s0, ran', Go(me));
        MovesNext(ran', Go(me), me);
        signalled := signalled - {WaitsOn(calls[me].op)};
        Advance(me, Woken);
        ran' := ran' + [Go(me)];
        var entered;
        entered, ran' := EnterSectionXp(me, s0, ran');
        done := !entered;
      }
    }

    /**
     The call is held up: for the section, before it began; waiting for its event, which is not set after all that
     the others do in that turn; or with the event consumed, for the section again; or it stands, after a failed
     wait, at a LeaveCriticalSection without owning the section.
     */
    ghost predicate HeldUpXp(me: nat, s0: State<T>, env: seq<seq<Label>>, ran: seq<Label>)
      reads this
    {
      && me < |calls|
      && match calls[me].phase
         case Start => owner.Some? && ran == Taken(Xp, s0, TurnOf(env, 0), me)
         case Waiting => WaitsOn(calls[me].op) !in signalled && WaitedTurn(s0, env, ran, me)
         case Woken =>
           && owner.Some? && owner != Some(me)
           && ran != [] && ran[|ran| - 1] == Go(me) && WaitedTurn(s0, env, ran[..|ran| - 1], me)
         case Unlock => owner != Some(me) && WaitFailed(ran, me) && Blocked(Abs(), calls[me].op)
         case _ => false
    }

    /**
     Leaving the section, WaitForSingleObject and the switch on its result. The call goes on with the loop test,
     owning the section after a signal and not owning it after a failure; or it returns false without the
     section; or it is held up.
     */
    method WaitXp(me: nat, env: seq<seq<Label>>, turn: nat, ghost s0: State<T>, ran: seq<Label>)
      returns (result: Option<bool>, done: bool, ran': seq<Label>)
      requires me < |calls| && calls[me].phase == Test && Blocked(Abs(), calls[me].op) && ReachedXp(s0, ran)
      requires owner == Some(me) <==> !WaitFailed(ran, me)
      requires turn > 0 && (owner == Some(me) ==> Moves(ran, me) == 4 * turn - 3)
      modifies this
      ensures ReachedXp(s0, ran') && me < |calls|
      ensures calls[me] == old(calls[me]).(phase := calls[me].phase)
      ensures !done ==> calls[me].phase == Test && (owner == Some(me) <==> !WaitFailed(ran', me))
      ensures !done && owner == Some(me) ==> Moves(ran', me) == 4 * turn + 1
      ensures !done ==> turn < |env| || |signalled| < |old(signalled)|
      ensures done ==> ReportsXp(me, result) && result != Some(true) && calls[me].phase != Start
      ensures done && result == None ==> HeldUpXp(me, s0, env, ran')
      ensures result == Some(false) ==> calls[me].phase == Leave(false) && owner != Some(me) && !calls[me].infinite
      ensures old(owner) != Some(me) ==> done && calls[me].phase == Unlock
    {
      hide Event.Run, Event.Step, Taken, Moves, Meanwhile, AfterWait, TurnGivenXp, WaitFailed;
      ghost var s := Abs();
      WaitsFrom(me, s0, ran);
      var left;
      left, ran' := GoWaitXp(me, TurnOf(env, turn), s0, ran);
      result, done := None, true;
      if left {
        StillWaiting(s0, s, ran, env, turn, me, ran');
        if calls[me].phase == Leave(false) {
          // WAIT_TIMEOUT: the destructor runs without owning the section
          left, ran' := LeaveSectionXp(me, s0, ran');
          assert !left;
          result := Some(false);
        } else if calls[me].phase == Test {
          // WAIT_FAILED: back to the loop test without the section
          done := false;
        } else {
          assert WaitedTurn(s0, env, ran', me);
          done, ran' := WakeUpXp(me, env, s0, ran');
        }
      }
    }

    /** SignalledXp, after a whole turn of the others. */
    method WakeUpXp(me: nat, env: seq<seq<Label>>, ghost s0: State<T>, ran: seq<Label>)
      returns (done: bool, ran': seq<Label>)
      requires me < |calls| && calls[me].phase == Waiting && owner != Some(me) && ReachedXp(s0, ran)
      requires WaitedTurn(s0, env, ran, me)
      modifies this
      ensures ReachedXp(s0, ran') && me < |calls| && (WaitFailed(ran', me) <==> WaitFailed(ran, me))
      ensures calls[me] == old(calls[me]).(phase := calls[me].phase)
      ensures !done ==> calls[me].phase == Test && owner == Some(me) && Moves(ran', me) == Moves(ran, me) + 2
      ensures !done ==> WaitsOn(calls[me].op) in old(signalled) && signalled == old(signalled) - {WaitsOn(calls[me].op)}
      ensures done ==> calls[me].phase in {Waiting, Woken} && HeldUpXp(me, s0, env, ran')
    {
      hide Event.Run, Event.Step, Taken, Meanwhile, Moves, WaitedTurn, WaitFailed;
      done, ran' := SignalledXp(me, s0, ran);
      if done && calls[me].phase == Woken {
        assert ran'[..|ran'| - 1] == ran;
      }
    }

    /** The two steps of an owner that goes to wait. */
    ghost method WaitsFrom(me: nat, s0: State<T>, ran: seq<Label>)
      requires me < |calls| && calls[me].phase == Test && Blocked(Abs(), calls[me].op) && ReachedXp(s0, ran)
      ensures Moves(ran + [Go(me)] + [Go(me)], me) == Moves(ran, me) + 2
      ensures owner == Some(me) ==>
        Event.Run(s0, ran + [Go(me)] + [Go(me)]) == Some(At(Abs(), me, Waiting).(owner := None))
    {
      MovesNext(ran, Go(me), me);
      MovesNext(ran + [Go(me)], Go(me), me);
      Event.RunSnoc(s0, ran, Go(me));
      if owner == Some(me) {
        Event.RunSnoc(s0, ran + [Go(me)], Go(me));
        assert At(At(Abs(), me, Unlock), me, Waiting).calls == At(Abs(), me, Waiting).calls;
      }
    }

    /** EnterCriticalSection at the beginning of a call, after what the others do before. */
    method BeginCallXp(me: nat, env: seq<seq<Label>>) returns (entered: bool, ran: seq<Label>)
      requires me < |calls| && calls[me].phase == Start
      modifies this
      ensures ReachedXp(old(Abs()), ran) && me < |calls| && !WaitFailed(ran, me)
      ensures entered <==> First(Xp, old(Abs()), env, me).owner == None
      ensures entered ==> calls[me] == old(calls[me]).(phase := Test) && owner == Some(me) && Moves(ran, me) == 1
      ensures !entered ==> calls[me] == old(calls[me]) && HeldUpXp(me, old(Abs()), env, ran)
      ensures q == First(Xp, old(Abs()), env, me).q
    {
      ran := OthersRunXp(me, TurnOf(env, 0));
      MovesOfOthers([], ran, me);
      assert [] + ran == ran;
      entered, ran := EnterSectionXp(me, old(Abs()), ran);
      hide Event.Run, Moves, Taken, Meanwhile;
    }

    /** q_.push_back(item), once the loop is left, with or without the section. */
    method AppendItemXp(me: nat, ghost s0: State<T>, ran: seq<Label>) returns (ran': seq<Label>)
      requires me < |calls| && calls[me].phase == Test && calls[me].op.Push? && |q| < maxSize && ReachedXp(s0, ran)
      modifies this`q, this`calls, this`log
      ensures ReachedXp(s0, ran') && (WaitFailed(ran', me) <==> WaitFailed(ran, me))
      ensures q == old(q) + [old(calls[me]).op.item] && log == old(log) + [Pushed(me, old(calls[me]).op.item)]
      ensures calls == old(calls)[me := old(calls[me]).(phase := Wake)]
    {
      hide Event.Run;
      Event.RunSnoc(s0, ran, Go(me));
      Advance(me, Transfer);
      Event.RunSnoc(s0, ran + [Go(me)], Go(me));
      q := q + [calls[me].op.item];
      log := log + [Pushed(me, calls[me].op.item)];
      Advance(me, Wake);
      ran' := ran + [Go(me)] + [Go(me)];
    }

    method TakeItemXp(me: nat, ghost s0: State<T>, ran: seq<Label>) returns (item: T, ran': seq<Label>)
      requires me < |calls| && calls[me].phase == Test && calls[me].op.Pop? && |q| > 0 && ReachedXp(s0, ran)
      modifies this`q, this`calls, this`log
      ensures ReachedXp(s0, ran') && (WaitFailed(ran', me) <==> WaitFailed(ran, me))
      ensures old(q) == [item] + q && log == old(log) + [Popped(me, item)]
      ensures calls == old(calls)[me := old(calls[me]).(phase := Wake, got := Some(item))]
    {
      hide Event.Run;
      Event.RunSnoc(s0, ran, Go(me));
      Advance(me, Transfer);
      Event.RunSnoc(s0, ran + [Go(me)], Go(me));
      item := q[0];
      q := q[1..];
      log := log + [Popped(me, item)];
      calls := calls[me := calls[me].(phase := Wake, got := Some(item))];
      ran' := ran + [Go(me)] + [Go(me)];
    }

    /** SetEvent. */
    method SetEventXp(me: nat, ghost s0: State<T>, ran: seq<Label>) returns (ran': seq<Label>)
      requires me < |calls| && calls[me].phase == Wake && ReachedXp(s0, ran)
      modifies this`signalled, this`calls
      ensures ReachedXp(s0, ran') && (WaitFailed(ran', me) <==> WaitFailed(ran, me))
      ensures signalled == old(signalled) + {Wakes(old(calls[me]).op)}
      ensures calls == old(calls)[me := old(calls[me]).(phase := Leave(true))]
    {
      Event.RunSnoc(s0, ran, Go(me));
      signalled := signalled + {Wakes(calls[me].op)};
      Advance(me, Leave(true));
      ran' := ran + [Go(me)];
    }

    method FinishPushXp(me: nat, ghost s0: State<T>, ran: seq<Label>) returns (left: bool, ran': seq<Label>)
      requires me < |calls| && calls[me].phase == Test && calls[me].op.Push? && |q| < maxSize && ReachedXp(s0, ran)
      modifies this
      ensures ReachedXp(s0, ran') && me < |calls| && (WaitFailed(ran', me) <==> WaitFailed(ran, me))
      ensures owner != Some(me)
      ensures q == old(q) + [old(calls[me]).op.item] && log == old(log) + [Pushed(me, old(calls[me]).op.item)]
      ensures signalled == old(signalled) + {QueueIsEmpty}
      ensures left <==> old(owner) == Some(me)
      ensures calls[me] == old(calls[me]).(phase := if left then Done(true) else Leave(true))
    {
      hide Event.Run, Event.Step;
      ran' := AppendItemXp(me, s0, ran);
      ran' := SetEventXp(me, s0, ran');
      left, ran' := LeaveSectionXp(me, s0, ran');
    }

    method FinishPopXp(me: nat, ghost s0: State<T>, ran: seq<Label>) returns (left: bool, item: T, ran': seq<Label>)
      requires me < |calls| && calls[me].phase == Test && calls[me].op.Pop? && |q| > 0 && ReachedXp(s0, ran)
      modifies this
      ensures ReachedXp(s0, ran') && me < |calls| && (WaitFailed(ran', me) <==> WaitFailed(ran, me))
      ensures owner != Some(me)
      ensures old(q) == [item] + q && log == old(log) + [Popped(me, item)]
      ensures signalled == old(signalled) + {QueueIsFull}
      ensures left <==> old(owner) == Some(me)
      ensures calls[me] == old(calls[me]).(phase := if left then Done(true) else Leave(true), got := Some(item))
    {
      hide Event.Run, Event.Step;
      item, ran' := TakeItemXp(me, s0, ran);
      ran' := SetEventXp(me, s0, ran');
      left, ran' := LeaveSectionXp(me, s0, ran');
    }

    /**
     try_push_back in the event branch. It returns true with the item pushed, and is finished with the critical
     section exactly when no wait of it has failed; it returns false after a timeout, without the section.
     */
    method TryPushBackXp(me: nat, env: seq<seq<Label>>) returns (result: Option<bool>, ran: seq<Label>)
      requires me < |calls| && calls[me].phase == Start && calls[me].op.Push?
      modifies this
      ensures Event.Run(old(Abs()), ran) == Some(Abs())
      ensures me < |calls| && ReportsXp(me, result)
      ensures result == None <==> HeldUpXp(me, old(Abs()), env, ran)
      ensures var s := First(Xp, old(Abs()), env, me);
        && (calls[me].phase == Start <==> s.owner.Some?)
        && (s.owner == None && |s.q| < maxSize ==> result == Some(true))
      ensures result == Some(true) ==> LastPushed(me, old(calls[me]).op.item)
      ensures result == Some(true) ==> (calls[me].phase == Done(true) <==> !WaitFailed(ran, me))
      ensures result == Some(false) ==> calls[me].phase == Leave(false) && !old(calls[me]).infinite
    {
      ghost var s0 := Abs();
      result := None;
      var entered, done, left;
      entered, ran := BeginCallXp(me, env);
      hide Event.Run, Event.Step, Taken, Meanwhile, TurnGivenXp, Moves, First;
      if !entered {
        return;
      }
      var turn := 1;
      while |q| >= maxSize
        invariant ReachedXp(s0, ran)
        invariant me < |calls| && calls[me] == s0.calls[me].(phase := Test)
        invariant owner == Some(me) <==> !WaitFailed(ran, me)
        invariant turn > 0 && (owner == Some(me) ==> Moves(ran, me) == 4 * turn - 3)
        invariant turn > 1 ==> |First(Xp, s0, env, me).q| >= maxSize
        invariant turn == 1 ==> q == First(Xp, s0, env, me).q
        decreases if turn < |env| then |env| - turn else 0, |signalled|
      {
        result, done, ran := WaitXp(me, env, turn, s0, ran);
        if done {
          return;
        }
        turn := turn + 1;
      }
      left, ran := FinishPushXp(me, s0, ran);
      result := Some(true);
    }

    /** try_pop_front in the event branch. */
    method TryPopFrontXp(me: nat, env: seq<seq<Label>>)
      returns (result: Option<bool>, item: Option<T>, ran: seq<Label>)
      requires me < |calls| && calls[me].phase == Start && calls[me].op.Pop? && calls[me].got == None
      modifies this
      ensures Event.Run(old(Abs()), ran) == Some(Abs())
      ensures me < |calls| && ReportsXp(me, result)
      ensures result == None <==> HeldUpXp(me, old(Abs()), env, ran)
      ensures var s := First(Xp, old(Abs()), env, me);
        && (calls[me].phase == Start <==> s.owner.Some?)
        && (s.owner == None && |s.q| > 0 ==> result == Some(true) && item == Some(s.q[0]))
      ensures item == calls[me].got && (item.Some? <==> result == Some(true))
      ensures item.Some? ==> LastPopped(me, item.value)
      ensures result == Some(true) ==> (calls[me].phase == Done(true) <==> !WaitFailed(ran, me))
      ensures result == Some(false) ==> calls[me].phase == Leave(false) && !old(calls[me]).infinite
    {
      ghost var s0 := Abs();
      result, item := None, None;
      var entered, done, left, front;
      entered, ran := BeginCallXp(me, env);
      hide Event.Run, Event.Step, Taken, Meanwhile, TurnGivenXp, Moves, First;
      if !entered {
        return;
      }
      var turn := 1;
      while |q| == 0
        invariant ReachedXp(s0, ran)
        invariant me < |calls| && calls[me] == s0.calls[me].(phase := Test)
        invariant owner == Some(me) <==> !WaitFailed(ran, me)
        invariant turn > 0 && (owner == Some(me) ==> Moves(ran, me) == 4 * turn - 3)
        invariant turn > 1 ==> First(Xp, s0, env, me).q == []
        invariant turn == 1 ==> q == First(Xp, s0, env, me).q
        decreases if turn < |env| then |env| - turn else 0, |signalled|
      {
        result, done, ran := WaitXp(me, env, turn, s0, ran);
        if done {
          return;
        }
        turn := turn + 1;
      }
      left, front, ran := FinishPopXp(me, s0, ran);
      result, item := Some(true), Some(front);
    }
  }
}
