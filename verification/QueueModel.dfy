/**
 The blocking queue seen as a monitor. Every call of try_push_back or
 try_pop_front is a thread of its own that moves through the statements of its
 body one at a time; a scheduler label says who moves next and resolves what
 the operating system decides.

 This module holds what the condition-variable branch and the event branch
 share: the state, the steps that both branches take, and the bounded FIFO that
 both of them implement.
 */
module QueueModel {
  import opened Prelude

  datatype Op<+T> = Push(item: T) | Pop

  /** The two waiting places of the queue, named as the fields of the class. */
  datatype Cond = QueueIsFull | QueueIsEmpty

  /** Where a call stands in its body. */
  datatype Phase =
    | Start            // before EnterCriticalSection
    | Test             // at the condition of the while loop
    | Unlock           // event branch: about to leave the critical section to wait
    | Asleep           // condition-variable branch: inside SleepConditionVariableCS
    | Waiting          // event branch: inside WaitForSingleObject
    | Woken            // released from its wait, about to re-enter the critical section
    | TimedOut         // condition-variable branch: timed out, must re-enter to return
    | Transfer         // loop left, about to touch the deque
    | Wake             // about to wake the other side
    | Leave(ok: bool)  // at the destructor of sync_t
    | Done(ok: bool)

  datatype Call<+T> = Call(op: Op<T>, infinite: bool, phase: Phase, got: Option<T>)

  /** History of effects on the deque, by the call that made them. */
  datatype Event<+T> = Pushed(call: nat, item: T) | Popped(call: nat, item: T)

  datatype State<T> = State(
    maxSize: nat,
    q: seq<T>,
    owner: Option<nat>,      // who owns the critical section
    signalled: set<Cond>,    // auto-reset events that are set (event branch)
    calls: seq<Call<T>>,
    log: seq<Event<T>>
  )

  datatype Label =
    | Go(i: nat)                // call i executes its next statement
    | Signal(i: nat, j: nat)    // call i wakes the sleeping call j
    | Timeout(i: nat)           // the wait of call i times out
    | Spurious(i: nat)          // call i leaves its wait without a wake or a timeout
    | WaitFails(i: nat)         // WaitForSingleObject of call i fails

  function WaitsOn<T>(op: Op<T>): Cond {
    if op.Push? then QueueIsFull else QueueIsEmpty
  }

  function Wakes<T>(op: Op<T>): Cond {
    if op.Push? then QueueIsEmpty else QueueIsFull
  }

  /** How many operations of the kind that waits on `cond` could proceed now. */
  function Avail<T>(s: State<T>, cond: Cond): int {
    if cond == QueueIsEmpty then |s.q| else s.maxSize - |s.q|
  }

  /** The condition of the while loop. */
  predicate Blocked<T>(s: State<T>, op: Op<T>) {
    if op.Push? then |s.q| >= s.maxSize else |s.q| == 0
  }

  /** Phases in which the code relies on owning the critical section. */
  predicate Locking(p: Phase) {
    p.Test? || p.Unlock? || p.Transfer? || p.Wake? || p.Leave?
  }

  predicate Initial<T(==)>(s: State<T>) {
    && |s.q| <= s.maxSize
    && s.owner == None
    && s.signalled == {}
    && s.log == []
    && forall i :: 0 <= i < |s.calls| ==> s.calls[i].phase == Start && s.calls[i].got == None
  }

  // ---- Steps shared by the two branches

  function At<T>(s: State<T>, i: nat, p: Phase): State<T>
    requires i < |s.calls|
  {
    s.(calls := s.calls[i := s.calls[i].(phase := p)])
  }

  /** EnterCriticalSection: possible only while nobody owns the section. */
  function Enter<T>(s: State<T>, i: nat, p: Phase): Option<State<T>>
    requires i < |s.calls|
  {
    if s.owner == None then Some(At(s, i, p).(owner := Some(i))) else None
  }

  /** LeaveCriticalSection: undefined, hence no step, unless called by the owner. */
  function Release<T>(s: State<T>, i: nat, p: Phase): Option<State<T>>
    requires i < |s.calls|
  {
    if s.owner == Some(i) then Some(At(s, i, p).(owner := None)) else None
  }

  /** q_.push_back(item), or item = q_.front(); q_.pop_front(). */
  function Move<T>(s: State<T>, i: nat): Option<State<T>>
    requires i < |s.calls|
  {
    match s.calls[i].op
    case Push(x) =>
      Some(At(s, i, Wake).(q := s.q + [x], log := s.log + [Pushed(i, x)]))
    case Pop =>
      if s.q == [] then None
      else
        var c := s.calls[i].(phase := Wake, got := Some(s.q[0]));
        Some(s.(q := s.q[1..], calls := s.calls[i := c], log := s.log + [Popped(i, s.q[0])]))
  }

  // ---- Lock discipline, common to both branches

  /** Whoever is in a phase that touches shared state owns the critical section, and conversely. */
  ghost predicate Disciplined<T>(s: State<T>) {
    && (forall i :: 0 <= i < |s.calls| && Locking(s.calls[i].phase) ==> s.owner == Some(i))
    && (s.owner.Some? ==> s.owner.value < |s.calls| && Locking(s.calls[s.owner.value].phase))
  }

  /** The queue never overflows, and a call about to touch it is not blocked. */
  ghost predicate Bounded<T>(s: State<T>) {
    && |s.q| <= s.maxSize
    && forall i :: 0 <= i < |s.calls| && s.calls[i].phase == Transfer ==> !Blocked(s, s.calls[i].op)
  }

  // ---- The specification: an atomic bounded FIFO

  /** One atomic operation of a FIFO of capacity `cap`. */
  function Atomic<T(==)>(cap: nat, q: seq<T>, e: Event<T>): Option<seq<T>> {
    match e
    case Pushed(_, x) => if |q| < cap then Some(q + [x]) else None
    case Popped(_, x) => if q != [] && q[0] == x then Some(q[1..]) else None
  }

  function Replay<T(==)>(cap: nat, q0: seq<T>, log: seq<Event<T>>): Option<seq<T>> {
    if log == [] then Some(q0)
    else
      match Replay(cap, q0, log[..|log| - 1])
      case None => None
      case Some(q) => Atomic(cap, q, log[|log| - 1])
  }

  function PushedItems<T>(log: seq<Event<T>>): seq<T> {
    if log == [] then []
    else
      var e := log[|log| - 1];
      PushedItems(log[..|log| - 1]) + if e.Pushed? then [e.item] else []
  }

  function PoppedItems<T>(log: seq<Event<T>>): seq<T> {
    if log == [] then []
    else
      var e := log[|log| - 1];
      PoppedItems(log[..|log| - 1]) + if e.Popped? then [e.item] else []
  }

  /** What the atomic FIFO means: nothing is lost, duplicated or reordered, and the capacity holds. */
  lemma {:induction false} ReplayConserves<T>(cap: nat, q0: seq<T>, log: seq<Event<T>>)
    requires Replay(cap, q0, log).Some?
    ensures q0 + PushedItems(log) == PoppedItems(log) + Replay(cap, q0, log).value
    ensures |q0| <= cap ==> |Replay(cap, q0, log).value| <= cap
  {
    if log != [] {
      var front := log[..|log| - 1];
      var e := log[|log| - 1];
      var q := Replay(cap, q0, front).value;
      ReplayConserves(cap, q0, front);
      if e.Pushed? {
        assert q0 + PushedItems(log) == (q0 + PushedItems(front)) + [e.item];
        assert PoppedItems(log) + (q + [e.item]) == (PoppedItems(front) + q) + [e.item];
      } else {
        assert q == [q[0]] + q[1..];
        assert PoppedItems(log) + q[1..] == PoppedItems(front) + ([q[0]] + q[1..]);
      }
    }
  }

  /** How often call `i` has taken effect. */
  function Effects<T>(log: seq<Event<T>>, i: nat): nat {
    if log == [] then 0
    else Effects(log[..|log| - 1], i) + if log[|log| - 1].call == i then 1 else 0
  }

  /** The call has passed its `Transfer` statement. */
  predicate Moved(p: Phase) {
    p == Wake || p == Leave(true) || p == Done(true)
  }

  /** Event `e` is what call `c` did. */
  predicate Matches<T(==)>(e: Event<T>, c: Call<T>) {
    match e
    case Pushed(_, x) => c.op == Push(x)
    case Popped(_, x) => c.op == Pop && c.got == Some(x)
  }

  /**
   The state is explained by its log: replaying the log atomically from the initial contents gives the
   present contents, each call took effect exactly once if it is past its transfer and not at all
   otherwise, and each effect carries the item of its call.
   */
  ghost predicate Linearized<T>(s: State<T>, q0: seq<T>) {
    && Replay(s.maxSize, q0, s.log) == Some(s.q)
    && (forall i :: 0 <= i < |s.calls| ==>
        Effects(s.log, i) == if Moved(s.calls[i].phase) then 1 else 0)
    && (forall k :: 0 <= k < |s.log| ==>
        s.log[k].call < |s.calls| && Matches(s.log[k], s.calls[s.log[k].call]))
  }

  lemma {:induction false} EffectsPositive<T>(log: seq<Event<T>>, k: nat)
    requires k < |log|
    ensures Effects(log, log[k].call) > 0
  {
    if k < |log| - 1 {
      EffectsPositive(log[..|log| - 1], k);
    }
  }

  /** Changing only phases, on the same side of `Moved`, keeps the explanation. */
  lemma LinearizedFrame<T>(s: State<T>, s': State<T>, q0: seq<T>)
    requires Linearized(s, q0)
    requires s'.q == s.q && s'.log == s.log && s'.maxSize == s.maxSize && |s'.calls| == |s.calls|
    requires forall i :: 0 <= i < |s.calls| ==>
      && s'.calls[i].op == s.calls[i].op
      && s'.calls[i].got == s.calls[i].got
      && Moved(s'.calls[i].phase) == Moved(s.calls[i].phase)
    ensures Linearized(s', q0)
  {
    forall k | 0 <= k < |s'.log|
      ensures s'.log[k].call < |s'.calls| && Matches(s'.log[k], s'.calls[s'.log[k].call])
    {
      assert s.log[k].call < |s.calls| && Matches(s.log[k], s.calls[s.log[k].call]);
    }
  }

  /** The one step with an effect refines one atomic operation. */
  lemma LinearizedMove<T>(s: State<T>, i: nat, q0: seq<T>)
    requires Linearized(s, q0) && i < |s.calls|
    requires s.calls[i].phase == Transfer && !Blocked(s, s.calls[i].op)
    requires Move(s, i).Some?
    ensures Linearized(Move(s, i).value, q0)
  {
    var s' := Move(s, i).value;
    var e := s'.log[|s.log|];
    assert s'.log[..|s'.log| - 1] == s.log;
    assert Replay(s.maxSize, q0, s'.log) == Atomic(s.maxSize, s.q, e);
    forall k | 0 <= k < |s'.log|
      ensures s'.log[k].call < |s'.calls| && Matches(s'.log[k], s'.calls[s'.log[k].call])
    {
      if k < |s.log| {
        assert s'.log[k] == s.log[k];
        EffectsPositive(s.log, k);
        assert s.log[k].call != i;
      }
    }
  }

  // ---- How many calls take effect

  function PushCall<T>(): Call<T> -> nat {
    (c: Call<T>) => if c.op.Push? then 1 else 0
  }

  function PopCall<T>(): Call<T> -> nat {
    (c: Call<T>) => if c.op.Pop? then 1 else 0
  }

  function PushMade<T>(): Call<T> -> nat {
    (c: Call<T>) => if c.op.Push? && Moved(c.phase) then 1 else 0
  }

  function PopMade<T>(): Call<T> -> nat {
    (c: Call<T>) => if c.op.Pop? && Moved(c.phase) then 1 else 0
  }

  /** The size of the queue accounts for the pushes and pops made so far, and their number is fixed. */
  ghost predicate Accounted<T>(s: State<T>, s0: State<T>) {
    && |s.q| + Sum(s.calls, PopMade<T>()) == |s0.q| + Sum(s.calls, PushMade<T>())
    && Sum(s.calls, PushCall<T>()) == Sum(s0.calls, PushCall<T>())
    && Sum(s.calls, PopCall<T>()) == Sum(s0.calls, PopCall<T>())
    && (s.maxSize == 0 ==> Sum(s.calls, PushMade<T>()) == 0)
    && (forall i :: 0 <= i < |s.calls| ==> s.calls[i].phase !in {TimedOut, Leave(false), Done(false)})
  }

  lemma AccountAt<T>(s: State<T>, i: nat, c: Call<T>)
    requires i < |s.calls| && c.op == s.calls[i].op
    ensures Sum(s.calls[i := c], PushMade<T>()) + PushMade<T>()(s.calls[i])
         == Sum(s.calls, PushMade<T>()) + PushMade<T>()(c)
    ensures Sum(s.calls[i := c], PopMade<T>()) + PopMade<T>()(s.calls[i])
         == Sum(s.calls, PopMade<T>()) + PopMade<T>()(c)
    ensures Sum(s.calls[i := c], PushCall<T>()) == Sum(s.calls, PushCall<T>())
    ensures Sum(s.calls[i := c], PopCall<T>()) == Sum(s.calls, PopCall<T>())
  {
    SumUpdate(s.calls, i, c, PushMade<T>());
    SumUpdate(s.calls, i, c, PopMade<T>());
    SumUpdate(s.calls, i, c, PushCall<T>());
    SumUpdate(s.calls, i, c, PopCall<T>());
  }

  /** Only the transfer statement moves an item, and it moves exactly one. */
  ghost predicate MovesOne<T>(s: State<T>, s': State<T>, i: nat) {
    && i < |s.calls| && |s'.calls| == |s.calls|
    && var (c, c') := (s.calls[i], s'.calls[i]);
    && s' == s.(q := s'.q, calls := s.calls[i := c'], owner := s'.owner, log := s'.log, signalled := s'.signalled)
    && c'.op == c.op
    && c'.phase !in {TimedOut, Leave(false), Done(false)}
    && if c.phase == Transfer then
         && c'.phase == Wake
         && |s'.q| == if c.op.Push? then |s.q| + 1 else |s.q| - 1
       else
         && s'.q == s.q && Moved(c'.phase) == Moved(c.phase)
  }

  lemma AccountedGo<T>(s: State<T>, s': State<T>, i: nat, s0: State<T>)
    requires Accounted(s, s0) && Bounded(s) && MovesOne(s, s', i)
    ensures Accounted(s', s0)
  {
    AccountAt(s, i, s'.calls[i]);
  }

  /** A thread that moves on without an effect on the deque. */
  lemma AccountedQuietly<T>(s: State<T>, i: nat, p: Phase, s0: State<T>)
    requires Accounted(s, s0) && i < |s.calls| && p !in {TimedOut, Leave(false), Done(false)}
    requires var c := s.calls[i].(phase := p);
             PushMade<T>()(c) == PushMade<T>()(s.calls[i]) && PopMade<T>()(c) == PopMade<T>()(s.calls[i])
    ensures Accounted(At(s, i, p), s0)
  {
    AccountAt(s, i, s.calls[i].(phase := p));
  }

  function Min(a: int, b: int): int {
    if a < b then a else b
  }

  /** As many operations as capacity `m` and `n` initial items allow `p` pushes and `c` pops. */
  ghost predicate AllThatFit(m: nat, n: nat, p: nat, c: nat, pushes: nat, pops: nat) {
    pushes == Min(p, c + m - n) && pops == Min(c, n + p)
  }

  lemma OutcomeArithmetic(m: nat, n: nat, size: nat, pushes: nat, pops: nat, full: nat, empty: nat)
    requires n <= m && size <= m && size + pops == n + pushes && (m == 0 ==> pushes == 0)
    requires full > 0 ==> m - size <= 0
    requires empty > 0 ==> size <= 0
    ensures AllThatFit(m, n, pushes + full, pops + empty, pushes, pops)
            <==> m >= 1 || pushes + full == 0 || pops + empty == 0
    ensures m == 0 ==> pushes == 0 && pops == 0
  {
  }
}
