/**
 The handler and its server as an object: the fields of IocpHandler with the heap, the threads and the
 system beside them, and the methods of the source as statements that assign to those fields. Between any
 two statements the other threads and the system run. The object is always in a state that an execution of the
 completion engine reaches, so all that is proved of those runs holds of it.
 */
module IocpHandler {
  import opened Prelude
  import opened IocpModel
  import opened IocpInvariant
  import opened IocpOwnership
  import opened IocpTableSteps
  import opened IocpSystemSteps
  import opened IocpProgress
  import Shutdown = IocpShutdown
  import Drain = IocpDrain
  import IocpSockets

  /** What happens before a statement, and what the system decides in it. */
  datatype Turn = Turn(others: seq<Label>, choice: Choice)

  /** Steps of worker `me`, or of the main thread if there is none. */
  predicate StepOf(l: Label, me: Option<nat>) {
    if me.Some? then l.Work? && l.w == me.value else l.MainStep?
  }

  /** The thread `me` is where it was. */
  predicate Waits(s: State, s': State, me: Option<nat>) {
    && |s'.workers| == |s.workers|
    && (me.Some? && me.value < |s.workers| ==> s'.workers[me.value] == s.workers[me.value])
    && (me.None? ==> s'.main == s.main)
  }

  lemma OthersLeaveAlone(s: State, l: Label, me: Option<nat>)
    requires Step(s, l).Some? && !StepOf(l, me)
    ensures Waits(s, Step(s, l).value, me)
  {
    hide StepWorker, StepMain;
    match l
    case Work(w, ch) => WorkerAdvances(s, Step(s, l).value, w, ch);
    case MainStep(ch) => MainRests(s, Step(s, l).value, ch);
    case _ => SystemRests(s, l);
  }

  // ---- What each statement finds

  ghost predicate HasSocket(s: State, c: CtxId) {
    && c in s.ctxs && s.ctxs[c].socket.Some?
    && s.ctxs[c].socket.value in s.keyOf && s.keyOf[s.ctxs[c].socket.value] == c
  }

  ghost predicate HasConnection(s: State, c: CtxId) {
    && HasSocket(s, c)
    && s.ctxs[c].socket.value in s.conns && s.conns[s.ctxs[c].socket.value].Some?
    && s.conns[s.ctxs[c].socket.value].value < |s.objs|
  }

  /** The map holds connection object `k` for the socket of context `c`. */
  ghost predicate MapsTo(s: State, c: CtxId, k: ConnId) {
    HasConnection(s, c) && s.conns[s.ctxs[c].socket.value] == Some(k)
  }

  ghost predicate Ready(s: State, wk: Worker) {
    match wk
    case Dispatching(p) => p.Completion? && p.ov == p.key && p.ov in s.ctxs && s.ctxs[p.ov].tag in {IOAccept, IOReceive}
    case AccOption(a, n) => a in s.ctxs && s.ctxs[a].accepted.Some?
    case AccCreate(a, n) => a in s.ctxs && s.ctxs[a].accepted.Some?
    case AccMap(a, n, c) =>
      && HasSocket(s, c) && s.ctxs[c].socket.value in s.peerOf
      && s.peerOf[s.ctxs[c].socket.value] < |s.peers|
    case AccDeliver(a, n, c, k) => a in s.ctxs && MapsTo(s, c, k) && n <= |s.ctxs[a].buffer|
    case AccRecv(a, c) => HasSocket(s, c)
    case AccSocket(a) => s.listener == Some(a) && a in s.ctxs
    case AccPost(a) => s.listener == Some(a) && HasSocketOrNone(s, a) && s.ctxs[a].accepted.Some?
    case RcvCount(a, ov, n) => a == ov && HasConnection(s, a)
    case RcvFetch(a, ov, n) => a == ov && HasConnection(s, a)
    case RcvDeliver(a, ov, n, k) => a == ov && MapsTo(s, a, k) && n <= |s.ctxs[a].buffer|
    case RcvPost(a, ov) => a == ov && HasSocket(s, a)
    case Disc(stage, c, back) =>
      (match stage
       case Lock => true
       case TestSocket =>
         && HasSocket(s, c) && s.ctxs[c].accepted == None && s.listener.Some? && s.listener.value in s.ctxs
         && s.ctxs[c].socket != s.ctxs[s.listener.value].socket
       case Notify => HasConnection(s, c)
       case Erase => HasSocket(s, c)
       case Close => HasSocket(s, c)
       case Remove => true
       case Free => c in s.ctxs
       case Unlock => true)
    case Crashed => false
    case Unmodelled(_) => false
    case _ => true
  }

  /** The listening socket, once closed at shutdown, is gone. */
  ghost predicate HasSocketOrNone(s: State, c: CtxId) {
    c in s.ctxs && (s.ctxs[c].socket.Some? ==> HasSocket(s, c))
  }

  lemma AcceptingReady(s: State, wk: Worker)
    requires WorkerOk(s, wk) && Tables(s) && Accepting(wk)
    ensures Ready(s, wk)
  {
    hide ListenerOk, ObjsOk, ListOk, LockerOk, MainPhaseOk;
  }

  lemma ReceivingReady(s: State, wk: Worker)
    requires WorkerOk(s, wk) && Tables(s) && Receiving(wk)
    ensures Ready(s, wk)
  {
    hide ListenerOk, PeersOk, ObjsOk, ListOk, LockerOk, MainPhaseOk;
  }

  lemma DisconnectingReady(s: State, wk: Worker)
    requires WorkerOk(s, wk) && Tables(s) && wk.Disc?
    ensures Ready(s, wk)
  {
    hide PeersOk, ObjsOk, ListOk, LockerOk, MainPhaseOk;
  }

  lemma LoopReady(s: State, wk: Worker)
    requires WorkerOk(s, wk) && Tables(s) && !Accepting(wk) && !Receiving(wk) && !wk.Disc?
    ensures Ready(s, wk)
  {
    hide KeysOk, PeersOk, ConnsOk, ObjsOk, ListOk, LockerOk, MainPhaseOk;
  }

  lemma AlwaysReady(s: State, w: nat)
    requires Inv(s) && w < |s.workers|
    ensures Ready(s, s.workers[w])
  {
    hide Inv, Tables, WorkerOk, Ready;
    WorkerFact(s, w);
    if Accepting(s.workers[w]) {
      AcceptingReady(s, s.workers[w]);
    } else if Receiving(s.workers[w]) {
      ReceivingReady(s, s.workers[w]);
    } else if s.workers[w].Disc? {
      DisconnectingReady(s, s.workers[w]);
    } else {
      LoopReady(s, s.workers[w]);
    }
  }

  lemma NothingBefore(s: State)
    requires Inv(s) && IocpSockets.Accounted(s) && s.main == Listening
    ensures s.open == {} && s.ctxs == map[] && s.locker == None
  {
    NothingYet(s);
    assert s.ctxs == map[];
    assert s.keyOf == map[];
  }

  ghost predicate MainReady(s: State) {
    match s.main
    case Arming => s.listener.Some? && s.listener.value in s.ctxs
    case ArmPost =>
      s.listener.Some? && HasSocketOrNone(s, s.listener.value) && s.ctxs[s.listener.value].accepted.Some?
    case Closing => s.exiting && s.listener.Some? && s.listener.value in s.ctxs
    case Stopped => s.exiting
    case _ => true
  }

  lemma MainAlwaysReady(s: State)
    requires Inv(s)
    ensures MainReady(s)
  {
    assert MainOk(s) && Tables(s);
    hide Owned, Holders, PeersOk, ConnsOk, ObjsOk, ListOk, LockerOk;
  }

  // ---- What single statements change, in terms of the states before and after

  ghost predicate Notified(s: State, s': State, c: CtxId, k: ConnId) {
    && MapsTo(s, c, k)
    && s'.objs == s.objs[k := s.objs[k].(closed := s.objs[k].closed + 1)] && s'.conns == s.conns
  }

  ghost predicate EntryErased(s: State, s': State, c: CtxId) {
    && HasSocket(s, c)
    && s'.conns == s.conns - {s.ctxs[c].socket.value} && s'.ctxs == s.ctxs
  }

  ghost predicate SocketClosed(s: State, s': State, c: CtxId) {
    && HasSocket(s, c)
    && var sk := s.ctxs[c].socket.value;
       && s'.open == s.open - {sk} && sk !in s'.keyOf && sk !in s'.peerOf
       && s'.ctxs == s.ctxs[c := s.ctxs[c].(socket := None)]
  }

  ghost predicate Unlisted(s: State, s': State, c: CtxId) {
    s'.list == Without(s.list, c) && c !in s'.list
  }

  ghost predicate Freed(s: State, s': State, c: CtxId) {
    c in s.ctxs && s'.ctxs == s.ctxs - {c}
  }

  /** What create_socket_context makes: nothing sent, nothing to send, no accept socket, a cleared buffer. */
  predicate Blank(x: Ctx, sk: Socket, tag: OpTag) {
    && x.socket == Some(sk) && x.tag == tag && x.accepted == None
    && x.totalBytes == 0 && x.sentBytes == 0
    && |x.buffer| == 4096 && forall i :: 0 <= i < |x.buffer| ==> x.buffer[i] == 0
  }

  lemma NewIsBlank(sk: Socket, tag: OpTag)
    ensures Blank(NewCtx(sk, tag), sk, tag)
  {
  }

  ghost predicate Created(s: State, s': State, a: CtxId, c: CtxId) {
    && c !in s.ctxs && a in s.ctxs && s.ctxs[a].accepted.Some? && c in s'.ctxs
    && var sk := s.ctxs[a].accepted.value;
       && Blank(s'.ctxs[c], sk, IOConnect) && s'.ctxs == s.ctxs[c := s'.ctxs[c]] && s'.keyOf == s.keyOf[sk := c]
  }

  lemma MakesContext(s: State, s': State, a: CtxId, c: CtxId)
    requires c !in s.ctxs && a in s.ctxs && s.ctxs[a].accepted.Some?
    requires var sk := s.ctxs[a].accepted.value;
             s'.ctxs == s.ctxs[c := NewCtx(sk, IOConnect)] && s'.keyOf == s.keyOf[sk := c]
    ensures Created(s, s', a, c)
  {
    NewIsBlank(s.ctxs[a].accepted.value, IOConnect);
  }

  ghost predicate ConnectionMapped(s: State, s': State, c: CtxId, k: ConnId) {
    && HasSocket(s, c) && k == |s.objs|
    && var sk := s.ctxs[c].socket.value;
       && sk in s.peerOf
       && s'.conns == s.conns[sk := Some(k)] && s'.objs == s.objs + [Conn(sk, s.peerOf[sk], [], 0)]
  }

  ghost predicate Delivered(s: State, s': State, a: CtxId, n: nat, k: ConnId) {
    && a in s.ctxs && n <= |s.ctxs[a].buffer| && k < |s.objs|
    && s'.objs == s.objs[k := s.objs[k].(delivered := s.objs[k].delivered + s.ctxs[a].buffer[..n])]
  }

  /** The last operation posted is a receive into the buffer of context `a`. */
  ghost predicate Armed(s: State, a: CtxId) {
    && a in s.ctxs && s.ctxs[a].socket.Some? && s.kernel != []
    && s.kernel[|s.kernel| - 1] == Pending(a, a, RecvOp(s.ctxs[a].socket.value, MAX_BUFF))
  }

  lemma PostedArms(s: State, s': State, a: CtxId)
    requires ReceivePosted(s, s', a, true)
    ensures Armed(s', a)
  {
  }

  /** WSARecv on context `c`, successful or not. */
  ghost predicate ReceivePosted(s: State, s': State, c: CtxId, ok: bool) {
    && HasSocket(s, c) && s'.ctxs == s.ctxs[c := s.ctxs[c].(tag := IOReceive)]
    && s'.kernel == s.kernel + if ok then [Pending(c, c, RecvOp(s.ctxs[c].socket.value, MAX_BUFF))] else []
  }

  /** WSARecv as a statement: the tag is set, and the operation is pending if the call succeeds. */
  lemma PostsReceive(s: State, s': State, c: CtxId, ok: bool)
    requires HasSocket(s, c) && s'.ctxs == s.ctxs[c := s.ctxs[c].(tag := IOReceive)]
    requires s'.kernel == s.kernel + if ok then [Pending(c, c, RecvOp(s.ctxs[c].socket.value, MAX_BUFF))] else []
    ensures ReceivePosted(s, s', c, ok)
  {
  }

  ghost predicate AcceptSocketSet(s: State, s': State, a: CtxId, sk: Option<Socket>) {
    && a in s.ctxs && s'.ctxs == s.ctxs[a := s.ctxs[a].(accepted := sk)]
    && s'.open == s.open + if sk.Some? then {sk.value} else {}
  }

  lemma SetsAcceptSocket(s: State, s': State, a: CtxId, sk: Option<Socket>)
    requires a in s.ctxs && s'.ctxs == s.ctxs[a := s.ctxs[a].(accepted := sk)]
    requires if sk.Some? then s'.open == s.open + {sk.value} else s'.open == s.open
    ensures AcceptSocketSet(s, s', a, sk)
  {
  }

  ghost predicate AcceptPosted(s: State, s': State, a: CtxId, ok: bool) {
    && a in s.ctxs && s.ctxs[a].accepted.Some?
    && s'.kernel == s.kernel + if ok then [Pending(a, a, AcceptOp(s.ctxs[a].accepted.value))] else []
  }

  lemma PostsAccept(s: State, s': State, a: CtxId, ok: bool)
    requires a in s.ctxs && s.ctxs[a].accepted.Some?
    requires if ok then s'.kernel == s.kernel + [Pending(a, a, AcceptOp(s.ctxs[a].accepted.value))]
             else s'.kernel == s.kernel
    ensures AcceptPosted(s, s', a, ok)
  {
  }

  // ---- The steps of one worker

  /** The steps that one worker has taken, each with the statement it stood at, the last one outermost. */
  datatype Path = Origin | Via(before: Path, at: Worker, last: Label)

  /** The statement that worker `w` stands at in state `n` of `states`. */
  function Standing(states: seq<State>, n: nat, w: nat): Worker {
    if n < |states| && w < |states[n].workers| then states[n].workers[w] else Returned
  }

  /** The path of worker `w` in the execution through `states` with labels `ls`. */
  function PathOf(states: seq<State>, ls: seq<Label>, w: nat): Path {
    if ls == [] then Origin
    else
      var n := |ls| - 1;
      var before := PathOf(states, ls[..n], w);
      if StepOf(ls[n], Some(w)) then Via(before, Standing(states, n, w), ls[n]) else before
  }

  lemma {:induction false} PathPrefix(states: seq<State>, more: seq<State>, ls: seq<Label>, w: nat)
    requires |ls| <= |states|
    ensures PathOf(states + more, ls, w) == PathOf(states, ls, w)
  {
    if ls != [] {
      PathPrefix(states, more, ls[..|ls| - 1], w);
    }
  }

  lemma PathNext(states: seq<State>, ls: seq<Label>, s: State, l: Label, w: nat)
    requires |states| == |ls| + 1
    ensures var past := PathOf(states, ls, w);
      PathOf(states + [s], ls + [l], w)
      == if StepOf(l, Some(w)) then Via(past, Standing(states, |ls|, w), l) else past
  {
    assert (ls + [l])[..|ls|] == ls;
    PathPrefix(states, [s], ls, w);
  }

  /** How many packets a worker has dispatched. */
  function Handled(p: Path): nat {
    match p
    case Origin => 0
    case Via(before, at, _) => Handled(before) + if at.Dispatching? then 1 else 0
  }

  /** How many steps a worker has taken. */
  function Steps(p: Path): nat {
    match p
    case Origin => 0
    case Via(before, _, _) => Steps(before) + 1
  }

  /** The lookup, the fetch and the callback of handle_receive. */
  function CallbackPath(past: Path, me: nat, a: CtxId, n: nat, k: ConnId): Path {
    var l := Work(me, FINE);
    Via(Via(Via(past, RcvCount(a, a, n), l), RcvFetch(a, a, n), l), RcvDeliver(a, a, n, k), l)
  }

  /** disconnect from the map entry on. */
  function DropPath(past: Path, me: nat, c: CtxId, back: Option<CtxId>): Path {
    var l := Work(me, FINE);
    Via(Via(Via(Via(Via(past, Disc(Erase, c, back), l), Disc(Close, c, back), l), Disc(Remove, c, back), l),
            Disc(Free, c, back), l), Disc(Unlock, c, back), l)
  }

  /** All of disconnect. */
  function DisconnectPath(past: Path, me: nat, c: CtxId, back: Option<CtxId>): Path {
    var l := Work(me, FINE);
    DropPath(Via(Via(Via(past, Disc(Lock, c, back), l), Disc(TestSocket, c, back), l), Disc(Notify, c, back), l),
             me, c, back)
  }

  lemma CountsNext()
    ensures forall before, at, last ::
              && Handled(Via(before, at, last)) == Handled(before) + (if at.Dispatching? then 1 else 0)
              && Steps(Via(before, at, last)) == Steps(before) + 1
  {
  }

  lemma DisconnectCounts(past: Path, me: nat, c: CtxId, back: Option<CtxId>)
    ensures Handled(DisconnectPath(past, me, c, back)) == Handled(past)
    ensures Steps(DisconnectPath(past, me, c, back)) == Steps(past) + 8
  {
    CountsNext();
    hide Handled, Steps;
  }

  lemma CallbackCounts(past: Path, me: nat, a: CtxId, n: nat, k: ConnId)
    ensures Handled(CallbackPath(past, me, a, n, k)) == Handled(past)
    ensures Steps(CallbackPath(past, me, a, n, k)) == Steps(past) + 3
  {
    CountsNext();
    hide Handled, Steps;
  }

  // ---- What happens between two statements of a thread

  /** The labels `ls` one after the other, without those that are not possible or are steps of `me`. */
  function Interference(s: State, ls: seq<Label>, me: Option<nat>): State {
    if ls == [] then s
    else
      var n := |ls| - 1;
      var t := Interference(s, ls[..n], me);
      var next := Step(t, ls[n]);
      if !StepOf(ls[n], me) && next.Some? then next.value else t
  }

  lemma InterferenceNext(s: State, ls: seq<Label>, k: nat, me: Option<nat>)
    requires k < |ls|
    ensures var t := Interference(s, ls[..k], me); var next := Step(t, ls[k]);
      Interference(s, ls[..k + 1], me) == if !StepOf(ls[k], me) && next.Some? then next.value else t
  {
    assert ls[..k + 1][..k] == ls[..k];
  }

  /** Whatever the other threads and the system can do, they do when `ls` says so. */
  lemma {:induction false} InterferenceFollows(states: seq<State>, ls: seq<Label>, me: Option<nat>)
    requires |states| == |ls| + 1
    requires forall k :: 0 <= k < |ls| ==> Next(states[k], ls[k], states[k + 1]) && !StepOf(ls[k], me)
    ensures Interference(states[0], ls, me) == states[|ls|]
  {
    hide Step;
    if ls != [] {
      var n := |ls| - 1;
      InterferenceFollows(states[..n + 1], ls[..n], me);
      assert Next(states[n], ls[n], states[n + 1]);
    }
  }

  class IocpHandler {
    const threads: nat
    const world: nat -> Turn       // what happens around the statements, one turn after the other
    var turn: nat

    var running: bool                        // isrunning_
    var exiting: bool                        // exiting_
    var port: bool                           // iocp_handle_ is not null
    var locker: Option<nat>                  // locker_
    var listener: Option<CtxId>              // the_socket_context_
    var list: seq<CtxId>                     // socket_contexts_
    var conns: map<Socket, Option<ConnId>>   // connections_
    var rest: State                          // heap, threads and system; the components above are not used
    ghost var states: seq<State>             // all states so far, the present one the last
    ghost var trace: seq<Label>              // the steps between them

    function Abs(): State
      reads this
    {
      rest.(running := running, exiting := exiting, port := port, locker := locker, listener := listener,
            list := list, conns := conns)
    }

    /** The object is at the end of an execution of the completion engine. */
    ghost predicate Valid()
      reads this
    {
      Execution(threads, History(states, trace)) && states[|trace|] == Abs()
    }

    constructor (threads: nat, world: nat -> Turn)
      ensures Valid() && Abs() == Initial(threads) && trace == []
      ensures !running && !exiting && port && locker == None && listener == None && list == [] && conns == map[]
      ensures rest.main == Boot && |rest.workers| == threads
      ensures forall w :: 0 <= w < threads ==> rest.workers[w] == Idle
    {
      this.threads, this.world, turn := threads, world, 0;
      running, exiting, port, locker, listener, list, conns := false, false, true, None, None, [], map[];
      rest := Initial(threads);
      states, trace := [Initial(threads)], [];
    }

    /** The last step was `l` in state `s`: it says what the present state is, component by component. */
    ghost predicate Took(s: State, past: seq<Label>, seen: seq<State>, l: Label)
      reads this
    {
      && Step(s, l) == Some(Abs())
      && trace == past + [l] && states == seen + [Abs()]
      && (l.Work? ==> PathOf(states, trace, l.w) == Via(PathOf(seen, past, l.w), Standing([s], 0, l.w), l))
    }

    /** The steps that worker `me` has taken so far. */
    ghost function Own(me: nat): Path
      reads this
    {
      PathOf(states, trace, me)
    }

    /** Thread `me` has taken the step `l`. */
    ghost method Record(s: State, l: Label)
      requires Execution(threads, History(states, trace)) && states[|trace|] == s && Step(s, l) == Some(Abs())
      modifies this`trace, this`states
      ensures Valid() && Took(s, old(trace), old(states), l)
    {
      assert |states| == |trace| + 1;
      hide Step, Execution;
      if l.Work? {
        PathNext(states, trace, Abs(), l, l.w);
      }
      ExtendExecution(threads, History(states, trace), l, Abs());
      states, trace := states + [Abs()], trace + [l];
    }

    /** Where worker `w` is. */
    predicate At(w: nat, wk: Worker)
      reads this
    {
      w < |rest.workers| && rest.workers[w] == wk
    }

    method Become(s: State)
      modifies this
      ensures Abs() == s && trace == old(trace) && states == old(states) && turn == old(turn)
    {
      running, exiting, port, locker, listener := s.running, s.exiting, s.port, s.locker, s.listener;
      list, conns, rest := s.list, s.conns, s;
    }

    /** The other threads and the system run, then thread `me` is told what the system decides in its next statement. */
    method Others(me: Option<nat>) returns (ch: Choice)
      requires Valid()
      modifies this
      ensures Valid() && old(trace) <= trace && |rest.workers| == |old(rest.workers)|
      ensures me.Some? && me.value < |rest.workers| ==> rest.workers[me.value] == old(rest.workers[me.value])
      ensures me.None? ==> rest.main == old(rest.main)
      ensures me.Some? ==> Own(me.value) == old(Own(me.value))
      ensures Abs() == Interference(old(Abs()), world(old(turn)).others, me)
      ensures ch == world(old(turn)).choice && turn == old(turn) + 1
    {
      var ls := world(turn).others;
      ch := world(turn).choice;
      turn := turn + 1;
      for k := 0 to |ls|
        invariant Valid() && old(trace) <= trace && Waits(old(Abs()), Abs(), me)
        invariant me.Some? ==> Own(me.value) == old(Own(me.value))
        invariant Abs() == Interference(old(Abs()), ls[..k], me) && turn == old(turn) + 1
      {
        InterferenceNext(old(Abs()), ls, k, me);
        var next := Step(Abs(), ls[k]);
        if !StepOf(ls[k], me) && next.Some? {
          ghost var s := Abs();
          OthersLeaveAlone(s, ls[k], me);
          if me.Some? {
            PathNext(states, trace, next.value, ls[k], me.value);
          }
          Become(next.value);
          Record(s, ls[k]);
        }
      }
      assert ls[..|ls|] == ls;
    }

    /**
     Of `steps` steps and `turns` turns before: for every step that worker `me` has taken since, the others have had
     a turn.
     */
    ghost predicate Paced(me: nat, steps: nat, turns: nat)
      reads this
    {
      Steps(Own(me)) + turns <= steps + turn
    }

    /** The others have a turn before the next statement of worker `me`. */
    method Meanwhile(me: nat) returns (ch: Choice)
      requires Valid()
      modifies this
      ensures Valid() && old(trace) <= trace && |rest.workers| == |old(rest.workers)|
      ensures me < |rest.workers| ==> rest.workers[me] == old(rest.workers[me])
      ensures Own(me) == old(Own(me)) && turn == old(turn) + 1
    {
      ch := Others(Some(me));
    }

    // ---- disconnect

    /** EnterCriticalSection; it is held up while another thread owns the section. */
    method EnterLocker(me: nat, c: CtxId, back: Option<CtxId>) returns (entered: bool)
      requires Valid() && At(me, Disc(Lock, c, back))
      modifies this`locker, this`rest, this`trace, this`states
      ensures Valid() && entered == (old(locker) == None)
      ensures if entered
              then At(me, Disc(TestSocket, c, back)) && Took(old(Abs()), old(trace), old(states), Work(me, FINE))
              else Abs() == old(Abs()) && rest == old(rest) && trace == old(trace)
      ensures locker == if entered then Some(me) else old(locker)
      ensures old(trace) <= trace
      ensures Own(me) == if entered then Via(old(Own(me)), Disc(Lock, c, back), Work(me, FINE)) else old(Own(me))
    {
      hide Execution, PathOf;
      entered := locker == None;
      if entered {
        ghost var s := Abs();
        locker := Some(me);
        rest := To(rest, me, Disc(TestSocket, c, back));
        Record(s, Work(me, FINE));
      }
    }

    method LeaveLocker(me: nat, c: CtxId, back: Option<CtxId>)
      requires Valid() && At(me, Disc(Unlock, c, back))
      modifies this`locker, this`rest, this`trace, this`states
      ensures Valid() && Took(old(Abs()), old(trace), old(states), Work(me, FINE)) && locker == None
      ensures At(me, if back.Some? then AccSocket(back.value) else Idle)
      ensures old(trace) <= trace
      ensures Own(me) == Via(old(Own(me)), Disc(Unlock, c, back), Work(me, FINE))
    {
      hide Execution, PathOf;
      ghost var s := Abs();
      locker := None;
      rest := To(rest, me, if back.Some? then AccSocket(back.value) else Idle);
      Record(s, Work(me, FINE));
    }

    /** The tests for the listening socket, which it never is, and for an accept socket, which there never is. */
    method TestSockets(me: nat, c: CtxId, back: Option<CtxId>) returns (listening: bool, accepted: bool)
      requires Valid() && At(me, Disc(TestSocket, c, back))
      modifies this`rest, this`trace, this`states
      ensures Valid() && Took(old(Abs()), old(trace), old(states), Work(me, FINE)) && At(me, Disc(Notify, c, back))
      ensures c in rest.ctxs && rest.ctxs[c].socket.Some? && listener.Some? && listener.value in rest.ctxs
      ensures listening == (rest.ctxs[c].socket == rest.ctxs[listener.value].socket) && !listening
      ensures accepted == rest.ctxs[c].accepted.Some? && !accepted
      ensures old(trace) <= trace
      ensures Own(me) == Via(old(Own(me)), Disc(TestSocket, c, back), Work(me, FINE))
    {
      Known(me);
      hide Execution, PathOf;
      ghost var s := Abs();
      listening := rest.ctxs[c].socket == rest.ctxs[listener.value].socket;
      accepted := rest.ctxs[c].accepted.Some?;
      rest := To(rest, me, Disc(Notify, c, back));
      Record(s, Work(me, FINE));
    }

    /** onDisconnected(connections_[socket]), on the mapped connection. */
    method NotifyDisconnected(me: nat, c: CtxId, back: Option<CtxId>) returns (k: ConnId)
      requires Valid() && At(me, Disc(Notify, c, back))
      modifies this`rest, this`trace, this`states
      ensures Valid() && Took(old(Abs()), old(trace), old(states), Work(me, FINE)) && At(me, Disc(Erase, c, back))
      ensures Notified(old(Abs()), Abs(), c, k)
      ensures old(trace) <= trace
      ensures Own(me) == Via(old(Own(me)), Disc(Notify, c, back), Work(me, FINE))
    {
      ConnectionKnown(me, c, back);
      hide Valid, HasConnection, Took, Own, Notified;
      k := conns[rest.ctxs[c].socket.value].value;
      CallDisconnected(me, c, back, rest.ctxs[c].socket.value, k);
    }

    method CallDisconnected(me: nat, c: CtxId, back: Option<CtxId>, sk: Socket, k: ConnId)
      requires Valid() && At(me, Disc(Notify, c, back))
      requires HasConnection(Abs(), c)
      requires c in rest.ctxs && rest.ctxs[c].socket == Some(sk) && sk in conns && conns[sk] == Some(k)
      requires k < |rest.objs|
      modifies this`rest, this`trace, this`states
      ensures Valid() && Took(old(Abs()), old(trace), old(states), Work(me, FINE)) && At(me, Disc(Erase, c, back))
      ensures Notified(old(Abs()), Abs(), c, k)
      ensures old(trace) <= trace
      ensures Own(me) == Via(old(Own(me)), Disc(Notify, c, back), Work(me, FINE))
    {
      hide Execution, PathOf;
      ghost var s := Abs();
      var o := rest.objs[k];
      rest := To(rest, me, Disc(Erase, c, back)).(objs := rest.objs[k := o.(closed := o.closed + 1)]);
      Record(s, Work(me, FINE));
    }

    method EraseConnection(me: nat, c: CtxId, back: Option<CtxId>)
      requires Valid() && At(me, Disc(Erase, c, back))
      modifies this`conns, this`rest, this`trace, this`states
      ensures Valid() && Took(old(Abs()), old(trace), old(states), Work(me, FINE)) && At(me, Disc(Close, c, back))
      ensures EntryErased(old(Abs()), Abs(), c)
      ensures old(trace) <= trace
      ensures Own(me) == Via(old(Own(me)), Disc(Erase, c, back), Work(me, FINE))
    {
      Known(me);
      hide Execution, PathOf;
      ghost var s := Abs();
      conns := conns - {rest.ctxs[c].socket.value};
      rest := To(rest, me, Disc(Close, c, back));
      Record(s, Work(me, FINE));
    }

    method CloseItsSocket(me: nat, c: CtxId, back: Option<CtxId>)
      requires Valid() && At(me, Disc(Close, c, back))
      modifies this`rest, this`trace, this`states
      ensures Valid() && Took(old(Abs()), old(trace), old(states), Work(me, FINE)) && At(me, Disc(Remove, c, back))
      ensures SocketClosed(old(Abs()), Abs(), c)
      ensures old(trace) <= trace
      ensures Own(me) == Via(old(Own(me)), Disc(Close, c, back), Work(me, FINE))
    {
      Known(me);
      hide Execution, PathOf;
      ghost var s := Abs();
      var x := rest.ctxs[c];
      rest := To(SetCtx(CloseSocket(rest, x.socket.value), c, x.(socket := None)), me, Disc(Remove, c, back));
      Record(s, Work(me, FINE));
    }

    method RemoveFromList(me: nat, c: CtxId, back: Option<CtxId>)
      requires Valid() && At(me, Disc(Remove, c, back))
      modifies this`list, this`rest, this`trace, this`states
      ensures Valid() && Took(old(Abs()), old(trace), old(states), Work(me, FINE)) && At(me, Disc(Free, c, back))
      ensures Unlisted(old(Abs()), Abs(), c)
      ensures old(trace) <= trace
      ensures Own(me) == Via(old(Own(me)), Disc(Remove, c, back), Work(me, FINE))
    {
      hide Execution, PathOf;
      WithoutMembers(list, c);
      ghost var s := Abs();
      list := Without(list, c);
      rest := To(rest, me, Disc(Free, c, back));
      Record(s, Work(me, FINE));
    }

    method FreeContext(me: nat, c: CtxId, back: Option<CtxId>)
      requires Valid() && At(me, Disc(Free, c, back))
      modifies this`rest, this`trace, this`states
      ensures Valid() && Took(old(Abs()), old(trace), old(states), Work(me, FINE)) && At(me, Disc(Unlock, c, back))
      ensures Freed(old(Abs()), Abs(), c)
      ensures old(trace) <= trace
      ensures Own(me) == Via(old(Own(me)), Disc(Free, c, back), Work(me, FINE))
    {
      Known(me);
      hide Execution, PathOf;
      ghost var s := Abs();
      rest := To(rest, me, Disc(Unlock, c, back)).(ctxs := rest.ctxs - {c});
      Record(s, Work(me, FINE));
    }

    /**
     disconnect: `done` is false while it waits for the critical section, and otherwise this worker has taken
     its eight steps, each as its own contract says, and no other.
     */
    method Disconnect(me: nat, c: CtxId, back: Option<CtxId>) returns (done: bool)
      requires Valid() && At(me, Disc(Lock, c, back))
      modifies this
      ensures Valid() && old(trace) <= trace
      ensures At(me, if !done then Disc(Lock, c, back) else if back.Some? then AccSocket(back.value) else Idle)
      ensures Own(me) == if done then DisconnectPath(old(Own(me)), me, c, back) else old(Own(me))
      ensures !done ==> locker.Some?
      ensures Handled(Own(me)) == old(Handled(Own(me)))
      ensures Paced(me, old(Steps(Own(me))), old(turn))
      ensures turn == old(turn) + if done then 8 else 1
    {
      hide Step, Interference, Valid, Abs, Took, Own, MapsTo, Notified, EntryErased, SocketClosed, Unlisted, Freed,
           Created, ConnectionMapped, Delivered, ReceivePosted, AcceptSocketSet, AcceptPosted, Armed, DropPath,
           Handled, Steps;
      ghost var past := Own(me);
      var _ := Meanwhile(me);
      done := EnterLocker(me, c, back);
      if done {
        var _ := Meanwhile(me);
        var listening, accepted := TestSockets(me, c, back);
        if !listening && !accepted {
          var _ := Meanwhile(me);
          var k := NotifyDisconnected(me, c, back);
        }
        DropContext(me, c, back);
        DisconnectCounts(past, me, c, back);
      }
    }

    /** The rest of disconnect, once onDisconnected has returned. */
    method DropContext(me: nat, c: CtxId, back: Option<CtxId>)
      requires Valid() && At(me, Disc(Erase, c, back))
      modifies this
      ensures Valid() && old(trace) <= trace
      ensures At(me, if back.Some? then AccSocket(back.value) else Idle)
      ensures Own(me) == DropPath(old(Own(me)), me, c, back)
      ensures turn == old(turn) + 5
    {
      hide Step, Interference, Valid, Abs, Took, Own, MapsTo, Notified, EntryErased, SocketClosed, Unlisted, Freed,
           Created, ConnectionMapped, Delivered, ReceivePosted, AcceptSocketSet, AcceptPosted, Armed;
      var _ := Meanwhile(me);
      EraseConnection(me, c, back);
      var _ := Meanwhile(me);
      CloseItsSocket(me, c, back);
      DeleteContext(me, c, back);
    }

    /** list_.remove, delete and leaveLocker. */
    method DeleteContext(me: nat, c: CtxId, back: Option<CtxId>)
      requires Valid() && At(me, Disc(Remove, c, back))
      modifies this
      ensures Valid() && old(trace) <= trace
      ensures At(me, if back.Some? then AccSocket(back.value) else Idle)
      ensures Own(me)
           == Via(Via(Via(old(Own(me)), Disc(Remove, c, back), Work(me, FINE)),
                      Disc(Free, c, back), Work(me, FINE)), Disc(Unlock, c, back), Work(me, FINE))
      ensures turn == old(turn) + 3
    {
      hide Step, Interference, Valid, Abs, Took, Own, MapsTo, Notified, EntryErased, SocketClosed, Unlisted, Freed,
           Created, ConnectionMapped, Delivered, ReceivePosted, AcceptSocketSet, AcceptPosted, Armed;
      var _ := Meanwhile(me);
      RemoveFromList(me, c, back);
      var _ := Meanwhile(me);
      FreeContext(me, c, back);
      var _ := Meanwhile(me);
      LeaveLocker(me, c, back);
    }

    // ---- updateCompletionPort

    /**
     create_socket_context and CreateIoCompletionPort. The first is held up while another thread owns the
     critical section; when the second fails, its null result overwrites iocp_handle_.
     */
    method CreateContext(me: nat, a: CtxId, n: nat, ch: Choice) returns (held: bool, c: Option<CtxId>)
      requires Valid() && At(me, AccCreate(a, n))
      modifies this`port, this`rest, this`trace, this`states
      ensures Valid() && held == old(locker).Some?
      ensures if held then Abs() == old(Abs()) && rest == old(rest) && trace == old(trace) && c == None
              else Took(old(Abs()), old(trace), old(states), Work(me, ch.(ok := c.Some?))) && (c.Some? ==> ch.ok)
      ensures !held && c.Some? ==> At(me, AccList(a, n, c.value)) && port
      ensures !held && c.None? ==> At(me, Returned) && !port
      ensures !held && c.Some? ==> Created(old(Abs()), Abs(), a, c.value)
      ensures old(trace) <= trace
      ensures Own(me)
           == if held then old(Own(me)) else Via(old(Own(me)), AccCreate(a, n), Work(me, ch.(ok := c.Some?)))
    {
      Known(me);
      PortKnown(me);
      hide Execution, PathOf, Valid, Created, Own;
      ghost var s := Abs();
      held, c := locker.Some?, None;
      if !held {
        var ok := ch.ok && ch.addr !in rest.ctxs;
        if ok {
          var sk := rest.ctxs[a].accepted.value;
          c := Some(ch.addr);
          rest := To(SetCtx(rest, ch.addr, NewCtx(sk, IOConnect)), me, AccList(a, n, ch.addr))
                  .(keyOf := rest.keyOf[sk := ch.addr]);
          MakesContext(s, Abs(), a, ch.addr);
        } else {
          port := false;
          rest := To(rest, me, Returned).(dropped := rest.dropped + [a]);
        }
        Record(s, Work(me, ch.(ok := ok)));
      }
    }

    method PushFront(me: nat, a: CtxId, n: nat, c: CtxId)
      requires Valid() && At(me, AccList(a, n, c))
      modifies this`list, this`rest, this`trace, this`states
      ensures Valid() && Took(old(Abs()), old(trace), old(states), Work(me, FINE)) && At(me, AccMap(a, n, c))
      ensures list == [c] + old(list)
      ensures old(trace) <= trace
      ensures Own(me) == Via(old(Own(me)), AccList(a, n, c), Work(me, FINE))
    {
      hide Execution, PathOf;
      ghost var s := Abs();
      list := [c] + list;
      rest := To(rest, me, AccMap(a, n, c));
      Record(s, Work(me, FINE));
    }

    method UpdateCompletionPort(me: nat, a: CtxId, n: nat) returns (held: bool, c: Option<CtxId>)
      requires Valid() && At(me, AccCreate(a, n))
      modifies this
      ensures Valid() && old(trace) <= trace
      ensures held ==> At(me, AccCreate(a, n))
      ensures !held ==> At(me, if c.Some? then AccMap(a, n, c.value) else Returned)
      ensures !held && c.Some? ==> list != [] && list[0] == c.value
      ensures held ==> locker.Some?
      ensures Handled(Own(me)) == old(Handled(Own(me)))
      ensures Paced(me, old(Steps(Own(me))), old(turn))
    {
      CountsNext();
      hide Step, Interference, Valid, Abs, Took, Own, MapsTo, Notified, EntryErased, SocketClosed, Unlisted, Freed,
           Created, ConnectionMapped, Delivered, ReceivePosted, AcceptSocketSet, AcceptPosted, Armed, Handled,
           Steps;
      var ch := Meanwhile(me);
      held, c := CreateContext(me, a, n, ch);
      if c.Some? {
        var _ := Meanwhile(me);
        PushFront(me, a, n, c.value);
      }
    }

    // ---- handle_accept and handle_new_connection

    /** setsockopt(SO_UPDATE_ACCEPT_CONTEXT), which can succeed only on a connected socket. */
    method UpdateAcceptContext(me: nat, a: CtxId, n: nat, ch: Choice) returns (ok: bool)
      requires Valid() && At(me, AccOption(a, n))
      modifies this`rest, this`trace, this`states
      ensures Valid() && Took(old(Abs()), old(trace), old(states), Work(me, ch.(ok := ok)))
      ensures At(me, if ok then AccCreate(a, n) else Returned)
      ensures ok <==> ch.ok && a in old(rest.ctxs) && old(rest.ctxs)[a].accepted.Some?
                      && old(rest.ctxs)[a].accepted.value in old(rest.peerOf)
      ensures old(trace) <= trace
      ensures Own(me) == Via(old(Own(me)), AccOption(a, n), Work(me, ch.(ok := ok)))
    {
      Known(me);
      hide Execution, PathOf;
      ghost var s := Abs();
      ok := ch.ok && rest.ctxs[a].accepted.value in rest.peerOf;
      if ok {
        rest := To(rest, me, AccCreate(a, n));
        Record(s, Work(me, ch.(ok := ok)));
      } else {
        rest := To(rest, me, Returned).(dropped := rest.dropped + [a]);
        Record(s, Work(me, ch.(ok := ok)));
      }
    }

    /** A new TcpConnection, entered in the map. */
    method MapConnection(me: nat, a: CtxId, n: nat, c: CtxId) returns (k: ConnId)
      requires Valid() && At(me, AccMap(a, n, c))
      modifies this`conns, this`rest, this`trace, this`states
      ensures Valid() && Took(old(Abs()), old(trace), old(states), Work(me, FINE))
      ensures At(me, if n > 0 then AccDeliver(a, n, c, k) else AccRecv(a, c))
      ensures ConnectionMapped(old(Abs()), Abs(), c, k)
      ensures old(trace) <= trace
      ensures Own(me) == Via(old(Own(me)), AccMap(a, n, c), Work(me, FINE))
    {
      Known(me);
      hide Execution, PathOf;
      ghost var s := Abs();
      var sk := rest.ctxs[c].socket.value;
      var q := rest.peerOf[sk];
      k := |rest.objs|;
      conns := conns[sk := Some(k)];
      rest := To(rest, me, if n > 0 then AccDeliver(a, n, c, k) else AccRecv(a, c))
              .(objs := rest.objs + [Conn(sk, q, [], 0)], peers := rest.peers[q := rest.peers[q].(conn := Some(k))]);
      Record(s, Work(me, FINE));
    }

    /** onDataReceived with the bytes that came with the accept. */
    method DeliverAccepted(me: nat, a: CtxId, n: nat, c: CtxId, k: ConnId)
      requires Valid() && At(me, AccDeliver(a, n, c, k))
      modifies this`rest, this`trace, this`states
      ensures Valid() && Took(old(Abs()), old(trace), old(states), Work(me, FINE)) && At(me, AccRecv(a, c))
      ensures MapsTo(old(Abs()), c, k) && Delivered(old(Abs()), Abs(), a, n, k)
      ensures old(trace) <= trace
      ensures Own(me) == Via(old(Own(me)), AccDeliver(a, n, c, k), Work(me, FINE))
    {
      Known(me);
      hide Execution, PathOf;
      ghost var s := Abs();
      var o := rest.objs[k];
      rest := To(rest, me, AccRecv(a, c))
              .(objs := rest.objs[k := o.(delivered := o.delivered + rest.ctxs[a].buffer[..n])]);
      Record(s, Work(me, FINE));
    }

    /** The first WSARecv of the new connection. */
    method ReceiveFirst(me: nat, a: CtxId, c: CtxId, ch: Choice)
      requires Valid() && At(me, AccRecv(a, c))
      modifies this`rest, this`trace, this`states
      ensures Valid() && Took(old(Abs()), old(trace), old(states), Work(me, ch))
      ensures At(me, if ch.ok then AccSocket(a) else Disc(Lock, c, Some(a)))
      ensures ReceivePosted(old(Abs()), Abs(), c, ch.ok)
      ensures old(trace) <= trace
      ensures Own(me) == Via(old(Own(me)), AccRecv(a, c), Work(me, ch))
    {
      Known(me);
      hide Execution, PathOf, Valid, ReceivePosted;
      ghost var s := Abs();
      var x := rest.ctxs[c];
      if ch.ok {
        rest := To(SetCtx(rest, c, x.(tag := IOReceive)), me, AccSocket(a))
                .(kernel := rest.kernel + [Pending(c, c, RecvOp(x.socket.value, MAX_BUFF))]);
        PostsReceive(s, Abs(), c, ch.ok);
        Record(s, Work(me, ch));
      } else {
        rest := To(SetCtx(rest, c, x.(tag := IOReceive)), me, Disc(Lock, c, Some(a)));
        PostsReceive(s, Abs(), c, ch.ok);
        Record(s, Work(me, ch));
      }
    }

    /**
     handle_new_connection, with the context that updateCompletionPort returned: the new connection and its
     first bytes.
     */
    method HandleNewConnection(me: nat, a: CtxId, n: nat, c: CtxId) returns (done: bool)
      requires Valid() && At(me, AccMap(a, n, c))
      modifies this
      ensures Valid() && old(trace) <= trace
      ensures At(me, if done then AccSocket(a) else Disc(Lock, c, Some(a)))
      ensures !done ==> locker.Some?
      ensures Handled(Own(me)) == old(Handled(Own(me)))
      ensures Paced(me, old(Steps(Own(me))), old(turn))
    {
      CountsNext();
      hide Step, Interference, Valid, Abs, Took, Own, MapsTo, Notified, EntryErased, SocketClosed, Unlisted, Freed,
           Created, ConnectionMapped, Delivered, ReceivePosted, AcceptSocketSet, AcceptPosted, Armed, CallbackPath,
           DropPath, DisconnectPath, Handled, Steps;
      var _ := Meanwhile(me);
      var k := MapConnection(me, a, n, c);
      if n > 0 {
        var _ := Meanwhile(me);
        DeliverAccepted(me, a, n, c, k);
      }
      done := BeginReceiving(me, a, c);
    }

    /** The rest of handle_new_connection. */
    method BeginReceiving(me: nat, a: CtxId, c: CtxId) returns (done: bool)
      requires Valid() && At(me, AccRecv(a, c))
      modifies this
      ensures Valid() && old(trace) <= trace
      ensures At(me, if done then AccSocket(a) else Disc(Lock, c, Some(a)))
      ensures !done ==> locker.Some?
      ensures Handled(Own(me)) == old(Handled(Own(me)))
      ensures Paced(me, old(Steps(Own(me))), old(turn))
    {
      CountsNext();
      hide Step, Interference, Valid, Abs, Took, Own, MapsTo, Notified, EntryErased, SocketClosed, Unlisted, Freed,
           Created, ConnectionMapped, Delivered, ReceivePosted, AcceptSocketSet, AcceptPosted, Armed, CallbackPath,
           DropPath, DisconnectPath, Handled, Steps;
      var ch := Meanwhile(me);
      ReceiveFirst(me, a, c, ch);
      done := true;
      if !ch.ok {
        done := Disconnect(me, c, Some(a));
      }
    }

    /** handle_accept. It succeeds, fails and ends the worker, or is held up at the critical section. */
    method HandleAccept(me: nat, a: CtxId, n: nat) returns (rc: Option<bool>)
      requires Valid() && At(me, AccOption(a, n))
      modifies this
      ensures Valid() && old(trace) <= trace && me < |rest.workers|
      ensures rc == Some(true) ==> At(me, AccSocket(a))
      ensures rc == Some(false) ==> At(me, Returned)
      ensures rc == None ==> NeedsSection(rest.workers[me])
      ensures rc == None ==> locker.Some?
      ensures Handled(Own(me)) == old(Handled(Own(me)))
      ensures Paced(me, old(Steps(Own(me))), old(turn))
    {
      CountsNext();
      hide Step, Interference, Valid, Abs, Took, Own, MapsTo, Notified, EntryErased, SocketClosed, Unlisted, Freed,
           Created, ConnectionMapped, Delivered, ReceivePosted, AcceptSocketSet, AcceptPosted, Armed, Handled,
           Steps;
      var ch := Meanwhile(me);
      var ok := UpdateAcceptContext(me, a, n, ch);
      if !ok {
        return Some(false);
      }
      rc := AdmitConnection(me, a, n);
    }

    /** handle_accept, once the accept socket is a socket like any other. */
    method AdmitConnection(me: nat, a: CtxId, n: nat) returns (rc: Option<bool>)
      requires Valid() && At(me, AccCreate(a, n))
      modifies this
      ensures Valid() && old(trace) <= trace && me < |rest.workers|
      ensures rc == Some(true) ==> At(me, AccSocket(a))
      ensures rc == Some(false) ==> At(me, Returned)
      ensures rc == None ==> NeedsSection(rest.workers[me])
      ensures rc == None ==> locker.Some?
      ensures Handled(Own(me)) == old(Handled(Own(me)))
      ensures Paced(me, old(Steps(Own(me))), old(turn))
    {
      hide Step, Interference, Valid, Abs, Took, Own, MapsTo, Notified, EntryErased, SocketClosed, Unlisted, Freed,
           Created, ConnectionMapped, Delivered, ReceivePosted, AcceptSocketSet, AcceptPosted, Armed;
      var held, c := UpdateCompletionPort(me, a, n);
      if held {
        return None;
      }
      if c.None? {
        return Some(false);
      }
      var done := HandleNewConnection(me, a, n, c.value);
      rc := if done then Some(true) else None;
    }

    // ---- start_accept

    /** A new accept socket; a handle that is already open is no answer of the system, and counts as a failure. */
    method CreateAcceptSocket(me: nat, a: CtxId, ch: Choice) returns (ok: bool)
      requires Valid() && At(me, AccSocket(a))
      modifies this`rest, this`trace, this`states
      ensures Valid() && Took(old(Abs()), old(trace), old(states), Work(me, ch.(ok := ok)))
      ensures At(me, if ok then AccPost(a) else Returned)
      ensures ok <==> ch.ok && ch.sock !in old(rest.open)
      ensures AcceptSocketSet(old(Abs()), Abs(), a, if ok then Some(ch.sock) else None)
      ensures old(trace) <= trace
      ensures Own(me) == Via(old(Own(me)), AccSocket(a), Work(me, ch.(ok := ok)))
    {
      Known(me);
      hide Execution, PathOf, Valid, Own, AcceptSocketSet;
      ghost var s := Abs();
      ok := ch.ok && ch.sock !in rest.open;
      var x := rest.ctxs[a];
      if ok {
        rest := To(SetCtx(rest, a, x.(accepted := Some(ch.sock))).(open := rest.open + {ch.sock}), me, AccPost(a));
      } else {
        rest := To(SetCtx(rest, a, x.(accepted := None)), me, Returned).(dropped := rest.dropped + [a]);
      }
      SetsAcceptSocket(s, Abs(), a, if ok then Some(ch.sock) else None);
      Record(s, Work(me, ch.(ok := ok)));
    }

    /** AcceptEx; its failure goes unnoticed. After shutdown has closed the listening socket it cannot succeed. */
    method PostAcceptEx(me: nat, a: CtxId, ch: Choice) returns (ok: bool)
      requires Valid() && At(me, AccPost(a))
      modifies this`rest, this`trace, this`states
      ensures Valid() && Took(old(Abs()), old(trace), old(states), Work(me, ch.(ok := ok))) && At(me, Idle)
      ensures ok <==> ch.ok && a in rest.ctxs && rest.ctxs[a].socket.Some?
      ensures AcceptPosted(old(Abs()), Abs(), a, ok)
      ensures old(trace) <= trace
      ensures Own(me) == Via(old(Own(me)), AccPost(a), Work(me, ch.(ok := ok)))
    {
      Known(me);
      hide Execution, PathOf, Valid, Own, AcceptPosted;
      ghost var s := Abs();
      var x := rest.ctxs[a];
      ok := ch.ok && x.socket.Some?;
      if ok {
        rest := To(rest, me, Idle).(kernel := rest.kernel + [Pending(a, a, AcceptOp(x.accepted.value))]);
      } else {
        rest := To(rest, me, Idle).(dropped := rest.dropped + [a]);
      }
      PostsAccept(s, Abs(), a, ok);
      Record(s, Work(me, ch.(ok := ok)));
    }

    method StartAccept(me: nat, a: CtxId) returns (ok: bool)
      requires Valid() && At(me, AccSocket(a))
      modifies this
      ensures Valid() && old(trace) <= trace && At(me, if ok then Idle else Returned)
      ensures Handled(Own(me)) == old(Handled(Own(me)))
      ensures Paced(me, old(Steps(Own(me))), old(turn))
    {
      CountsNext();
      hide Step, Interference, Valid, Abs, Took, Own, MapsTo, Notified, EntryErased, SocketClosed, Unlisted, Freed,
           Created, ConnectionMapped, Delivered, ReceivePosted, AcceptSocketSet, AcceptPosted, Armed, Handled,
           Steps;
      var ch := Meanwhile(me);
      ok := CreateAcceptSocket(me, a, ch);
      if ok {
        ch := Meanwhile(me);
        var _ := PostAcceptEx(me, a, ch);
      }
    }

    // ---- handle_receive and start_receive

    /** connections_.count(socket) > 0: always, so "Socket does not exist" is never printed. */
    method CountConnection(me: nat, a: CtxId, n: nat) returns (found: bool)
      requires Valid() && At(me, RcvCount(a, a, n))
      modifies this`rest, this`trace, this`states
      ensures Valid() && Took(old(Abs()), old(trace), old(states), Work(me, FINE)) && found && At(me, RcvFetch(a, a, n))
      ensures old(trace) <= trace
      ensures Own(me) == Via(old(Own(me)), RcvCount(a, a, n), Work(me, FINE))
    {
      Known(me);
      hide Execution, PathOf;
      ghost var s := Abs();
      found := rest.ctxs[a].socket.value in conns;
      rest := To(rest, me, RcvFetch(a, a, n));
      Record(s, Work(me, FINE));
    }

    method FetchConnection(me: nat, a: CtxId, n: nat) returns (k: ConnId)
      requires Valid() && At(me, RcvFetch(a, a, n))
      modifies this`rest, this`trace, this`states
      ensures Valid() && Took(old(Abs()), old(trace), old(states), Work(me, FINE)) && At(me, RcvDeliver(a, a, n, k))
      ensures a in rest.ctxs && rest.ctxs[a].socket.Some? && rest.ctxs[a].socket.value in conns
      ensures conns[rest.ctxs[a].socket.value] == Some(k)
      ensures old(trace) <= trace
      ensures Own(me) == Via(old(Own(me)), RcvFetch(a, a, n), Work(me, FINE))
    {
      Known(me);
      hide Execution, PathOf;
      ghost var s := Abs();
      k := conns[rest.ctxs[a].socket.value].value;
      rest := To(rest, me, RcvDeliver(a, a, n, k));
      Record(s, Work(me, FINE));
    }

    /** onDataReceived with the received bytes. */
    method DeliverReceived(me: nat, a: CtxId, n: nat, k: ConnId)
      requires Valid() && At(me, RcvDeliver(a, a, n, k))
      modifies this`rest, this`trace, this`states
      ensures Valid() && Took(old(Abs()), old(trace), old(states), Work(me, FINE)) && At(me, RcvPost(a, a))
      ensures MapsTo(old(Abs()), a, k) && Delivered(old(Abs()), Abs(), a, n, k)
      ensures old(trace) <= trace
      ensures Own(me) == Via(old(Own(me)), RcvDeliver(a, a, n, k), Work(me, FINE))
    {
      Known(me);
      hide Execution, PathOf;
      ghost var s := Abs();
      var o := rest.objs[k];
      rest := To(rest, me, RcvPost(a, a))
              .(objs := rest.objs[k := o.(delivered := o.delivered + rest.ctxs[a].buffer[..n])]);
      Record(s, Work(me, FINE));
    }

    /** WSARecv, into the buffer whose callback has returned. */
    method PostReceive(me: nat, a: CtxId, ch: Choice)
      requires Valid() && At(me, RcvPost(a, a))
      modifies this`rest, this`trace, this`states
      ensures Valid() && Took(old(Abs()), old(trace), old(states), Work(me, ch))
      ensures At(me, if ch.ok then Idle else Disc(Lock, a, None))
      ensures ReceivePosted(old(Abs()), Abs(), a, ch.ok)
      ensures old(trace) <= trace
      ensures Own(me) == Via(old(Own(me)), RcvPost(a, a), Work(me, ch))
    {
      Known(me);
      hide Execution, PathOf, Valid, ReceivePosted;
      ghost var s := Abs();
      var x := rest.ctxs[a];
      if ch.ok {
        rest := To(SetCtx(rest, a, x.(tag := IOReceive)), me, Idle)
                .(kernel := rest.kernel + [Pending(a, a, RecvOp(x.socket.value, MAX_BUFF))]);
        PostsReceive(s, Abs(), a, ch.ok);
        Record(s, Work(me, ch));
      } else {
        rest := To(SetCtx(rest, a, x.(tag := IOReceive)), me, Disc(Lock, a, None));
        PostsReceive(s, Abs(), a, ch.ok);
        Record(s, Work(me, ch));
      }
    }

    method StartReceive(me: nat, a: CtxId) returns (done: bool, ch: Choice)
      requires Valid() && At(me, RcvPost(a, a))
      modifies this
      ensures Valid() && old(trace) <= trace && At(me, if done then Idle else Disc(Lock, a, None))
      ensures ch.ok ==> done && Armed(Abs(), a)
      ensures var posted := Via(old(Own(me)), RcvPost(a, a), Work(me, ch));
        Own(me) == if ch.ok || !done then posted else DisconnectPath(posted, me, a, None)
      ensures !done ==> locker.Some?
      ensures Handled(Own(me)) == old(Handled(Own(me)))
      ensures Paced(me, old(Steps(Own(me))), old(turn))
    {
      CountsNext();
      hide Step, Interference, Valid, Abs, Took, Own, MapsTo, Notified, EntryErased, SocketClosed, Unlisted, Freed,
           Created, ConnectionMapped, Delivered, ReceivePosted, AcceptSocketSet, AcceptPosted, Armed, CallbackPath,
           DropPath, DisconnectPath, Handled, Steps;
      ch := Meanwhile(me);
      ghost var s := Abs();
      PostReceive(me, a, ch);
      done := true;
      if ch.ok {
        PostedArms(s, Abs(), a);
      } else {
        done := Disconnect(me, a, None);
      }
    }

    /** handle_receive: the data, then start_receive; and no other step of this worker. */
    method HandleReceive(me: nat, a: CtxId, n: nat) returns (done: bool, ch: Choice, k: ConnId)
      requires Valid() && At(me, RcvCount(a, a, n))
      modifies this
      ensures Valid() && old(trace) <= trace && At(me, if done then Idle else Disc(Lock, a, None))
      ensures var posted := Via(CallbackPath(old(Own(me)), me, a, n, k), RcvPost(a, a), Work(me, ch));
        Own(me) == if ch.ok || !done then posted else DisconnectPath(posted, me, a, None)
      ensures !done ==> locker.Some?
      ensures Handled(Own(me)) == old(Handled(Own(me)))
      ensures Paced(me, old(Steps(Own(me))), old(turn))
    {
      CountsNext();
      hide Step, Interference, Valid, Abs, Took, Own, MapsTo, Notified, EntryErased, SocketClosed, Unlisted, Freed,
           Created, ConnectionMapped, Delivered, ReceivePosted, AcceptSocketSet, AcceptPosted, Armed, CallbackPath,
           DropPath, DisconnectPath, Handled, Steps;
      ghost var s;
      ghost var past := Own(me);
      k, s := ReceiveData(me, a, n);
      CallbackCounts(past, me, a, n, k);
      done, ch := StartReceive(me, a);
    }

    /** The lookup, the fetch and the callback; `s` is the state in which the callback is made. */
    method ReceiveData(me: nat, a: CtxId, n: nat) returns (k: ConnId, ghost s: State)
      requires Valid() && At(me, RcvCount(a, a, n))
      modifies this
      ensures Valid() && old(trace) <= trace && At(me, RcvPost(a, a))
      ensures Step(s, Work(me, FINE)) == Some(Abs()) && MapsTo(s, a, k) && Delivered(s, Abs(), a, n, k)
      ensures Own(me) == CallbackPath(old(Own(me)), me, a, n, k)
      ensures Paced(me, old(Steps(Own(me))), old(turn))
      ensures turn == old(turn) + 3
    {
      ghost var past := Own(me);
      hide Steps, Interference, Valid, Abs, Own, MapsTo, Delivered, Step;
      var _ := Meanwhile(me);
      var found := CountConnection(me, a, n);
      if found {
        var _ := Meanwhile(me);
        k := FetchConnection(me, a, n);
        var _ := Meanwhile(me);
        s := Abs();
        DeliverReceived(me, a, n, k);
      }
      CallbackCounts(past, me, a, n, k);
    }

    // ---- WorkerThread

    /** GetQueuedCompletionStatus with INFINITE: held up while the queue is empty. */
    method Dequeue(me: nat) returns (p: Option<Packet>)
      requires Valid() && At(me, Idle)
      modifies this`rest, this`trace, this`states
      ensures Valid() && (p.None? <==> old(rest.queue) == [])
      ensures if p.Some? then At(me, Dequeued(p.value)) && Took(old(Abs()), old(trace), old(states), Work(me, FINE))
              else Abs() == old(Abs()) && rest == old(rest) && trace == old(trace)
      ensures p.Some? ==> p.value == old(rest.queue)[0] && rest.queue == old(rest.queue)[1..]
      ensures old(trace) <= trace
      ensures Own(me) == if p.Some? then Via(old(Own(me)), Idle, Work(me, FINE)) else old(Own(me))
    {
      hide Execution, PathOf;
      ghost var s := Abs();
      p := None;
      if rest.queue != [] {
        p := Some(rest.queue[0]);
        rest := To(rest, me, Dequeued(rest.queue[0])).(queue := rest.queue[1..]);
        Record(s, Work(me, FINE));
      }
    }

    /** The tests of exiting_ and isrunning_. */
    method TestFlags(me: nat, p: Packet) returns (goOn: bool)
      requires Valid() && At(me, Dequeued(p))
      modifies this`rest, this`trace, this`states
      ensures Valid() && Took(old(Abs()), old(trace), old(states), Work(me, FINE))
      ensures At(me, if goOn then Dispatching(p) else Returned)
      ensures goOn <==> !old(exiting) && old(running)
      ensures old(trace) <= trace
      ensures Own(me) == Via(old(Own(me)), Dequeued(p), Work(me, FINE))
    {
      hide Execution, PathOf;
      ghost var s := Abs();
      goOn := !(exiting || !running);
      if goOn {
        rest := To(rest, me, Dispatching(p));
      } else {
        rest := To(rest, me, Returned).(dropped := rest.dropped + Tokens(p));
      }
      Record(s, Work(me, FINE));
    }

    /** The test for a client that went away, and the switch. The overlapped pointer is never null here. */
    method Dispatch(me: nat, p: Packet) returns (next: Worker)
      requires Valid() && At(me, Dispatching(p))
      modifies this`rest, this`trace, this`states
      ensures Valid() && Took(old(Abs()), old(trace), old(states), Work(me, FINE)) && At(me, next)
      ensures p.Completion? && p.key == p.ov
      ensures next in {Disc(Lock, p.key, None), AccOption(p.key, p.size), RcvCount(p.key, p.key, p.size)}
      ensures next.Disc? <==> p.ov in rest.ctxs && rest.ctxs[p.ov].tag != IOAccept && (!p.ok || p.size == 0)
      ensures old(trace) <= trace
      ensures Own(me) == Via(old(Own(me)), Dispatching(p), Work(me, FINE))
    {
      Known(me);
      hide Execution, PathOf;
      ghost var s := Abs();
      var tag := rest.ctxs[p.ov].tag;
      if tag != IOAccept && (!p.ok || p.size == 0) {
        next := Disc(Lock, p.key, None);
      } else if tag == IOAccept {
        next := AccOption(p.key, p.size);
      } else {
        next := RcvCount(p.key, p.key, p.size);
      }
      rest := To(rest, me, next);
      Record(s, Work(me, FINE));
    }

    /** What one dispatched packet leads to. */
    method Handle(me: nat, p: Packet) returns (rc: Option<bool>)
      requires Valid() && At(me, Dispatching(p))
      modifies this
      ensures Valid() && old(trace) <= trace && me < |rest.workers|
      ensures rc == Some(true) ==> At(me, Idle)
      ensures rc == Some(false) ==> At(me, Returned)
      ensures rc == None ==> NeedsSection(rest.workers[me])
      ensures rc == None ==> locker.Some?
      ensures Handled(Own(me)) == old(Handled(Own(me))) + 1
      ensures Paced(me, old(Steps(Own(me))) + 1, old(turn))
    {
      CountsNext();
      hide Step, Interference, Valid, Abs, Took, Own, MapsTo, Notified, EntryErased, SocketClosed, Unlisted, Freed,
           Created, ConnectionMapped, Delivered, ReceivePosted, AcceptSocketSet, AcceptPosted, Armed, CallbackPath,
           DropPath, DisconnectPath, Handled, Steps;
      var next := Dispatch(me, p);
      var done := true;
      if next.Disc? {
        done := Disconnect(me, p.key, None);
      } else if next.RcvCount? {
        var ch, k;
        done, ch, k := HandleReceive(me, p.key, p.size);
      } else {
        rc := HandleAccept(me, p.key, p.size);
        if rc == Some(true) {
          var ok := StartAccept(me, p.key);
          rc := Some(ok);
        }
        return;
      }
      rc := if done then Some(true) else None;
    }

    /** The head of the loop of WorkerThread: a packet to handle, or the end of the thread. */
    method NextPacket(me: nat) returns (p: Option<Packet>, returned: bool)
      requires Valid() && At(me, Idle)
      modifies this
      ensures Valid() && old(trace) <= trace && (returned ==> p.None?)
      ensures At(me, if p.Some? then Dispatching(p.value) else if returned then Returned else Idle)
      ensures p.None? && !returned ==> rest.queue == []
      ensures Handled(Own(me)) == old(Handled(Own(me)))
      ensures Paced(me, old(Steps(Own(me))), old(turn))
    {
      CountsNext();
      hide Step, Interference, Valid, Abs, Took, Own, MapsTo, Notified, EntryErased, SocketClosed, Unlisted, Freed,
           Created, ConnectionMapped, Delivered, ReceivePosted, AcceptSocketSet, AcceptPosted, Armed, Handled,
           Steps;
      var _ := Meanwhile(me);
      returned := false;
      p := Dequeue(me);
      if p.Some? {
        var _ := Meanwhile(me);
        var goOn := TestFlags(me, p.value);
        if !goOn {
          p, returned := None, true;
        }
      }
    }

    /** Worker `me` waits: at the empty queue, or for the critical section, which has an owner. */
    ghost predicate HeldUp(me: nat)
      reads this
    {
      && me < |rest.workers|
      && ((rest.workers[me] == Idle && rest.queue == []) || (NeedsSection(rest.workers[me]) && locker.Some?))
    }

    /** One turn of the loop of WorkerThread. */
    method HandleNext(me: nat) returns (rc: Option<bool>)
      requires Valid() && At(me, Idle)
      modifies this
      ensures Valid() && old(trace) <= trace && me < |rest.workers|
      ensures rc == Some(true) ==> At(me, Idle)
      ensures rc == Some(false) ==> At(me, Returned)
      ensures rc == None ==> HeldUp(me)
      ensures Handled(Own(me)) <= old(Handled(Own(me))) + 1
      ensures rc == Some(true) ==> Handled(Own(me)) == old(Handled(Own(me))) + 1
      ensures Paced(me, old(Steps(Own(me))), old(turn))
    {
      hide Step, Interference, Valid, Abs, Took, Own, MapsTo, Notified, EntryErased, SocketClosed, Unlisted, Freed,
           Created, ConnectionMapped, Delivered, ReceivePosted, AcceptSocketSet, AcceptPosted, Armed;
      var p, returned := NextPacket(me);
      if p.None? {
        return if returned then Some(false) else None;
      }
      var _ := Meanwhile(me);
      rc := Handle(me, p.value);
    }

    /**
     WorkerThread, for at most `rounds` packets. It returns, or is held up: at the queue, at the critical
     section, or because the rounds are over.
     */
    method WorkerThread(me: nat, rounds: nat) returns (returned: bool)
      requires Valid() && At(me, Idle)
      modifies this
      ensures Valid() && old(trace) <= trace && me < |rest.workers|
      ensures returned ==> At(me, Returned)
      ensures !returned ==> HeldUp(me) || (At(me, Idle) && Handled(Own(me)) == old(Handled(Own(me))) + rounds)
      ensures Handled(Own(me)) <= old(Handled(Own(me))) + rounds
      ensures Paced(me, old(Steps(Own(me))), old(turn))
    {
      hide Step, Interference, Valid, Abs, Took, Own, MapsTo, Notified, EntryErased, SocketClosed, Unlisted, Freed,
           Created, ConnectionMapped, Delivered, ReceivePosted, AcceptSocketSet, AcceptPosted, Armed;
      for k := 0 to rounds
        invariant Valid() && old(trace) <= trace && At(me, Idle)
        invariant Paced(me, old(Steps(Own(me))), old(turn))
        invariant Handled(Own(me)) == old(Handled(Own(me))) + k
      {
        var rc := HandleNext(me);
        if rc == None {
          return false;
        } else if !rc.value {
          return true;
        }
      }
      return false;
    }

    // ---- TcpServer::Start, TcpServer::Stop and exiting, in the main thread

    /** What the main thread may rely on. */
    ghost method MainKnown()
      requires Valid()
      ensures MainReady(Abs())
    {
      ExecutionKeepsInv(threads, History(states, trace), |trace|);
      MainAlwaysReady(Abs());
    }

    /** The listening socket is still there. */
    ghost method StillListens()
      requires Valid() && rest.main !in {Boot, Listening, Stopped}
      ensures listener.Some? && listener.value in rest.ctxs && rest.ctxs[listener.value].socket.Some?
    {
      assert Reachable(threads, states[|trace|]);
      IocpSockets.StillListening(threads, Abs());
    }

    /** Before the listening socket is created the server has no handle and no context. */
    ghost method NothingIsOpen()
      requires Valid() && rest.main == Listening
      ensures rest.open == {} && rest.ctxs == map[] && locker == None
    {
      ExecutionKeepsInv(threads, History(states, trace), |trace|);
      IocpSockets.ExecutionAccounted(threads, History(states, trace), |trace|);
      NothingBefore(Abs());
    }

    /** IocpHandler::start. */
    method StartHandler()
      requires Valid() && rest.main == Boot
      modifies this`running, this`rest, this`trace, this`states
      ensures Valid() && Took(old(Abs()), old(trace), old(states), MainStep(FINE)) && rest.main == Listening && running
      ensures old(trace) <= trace
    {
      hide Execution, PathOf, StepWorker;
      ghost var s := Abs();
      running := true;
      rest := rest.(main := Listening);
      Record(s, MainStep(FINE));
    }

    /** create_listener and updateCompletionPort(ls_, IOAccept, FALSE); the calls of start-up succeed. */
    method CreateListener(ch: Choice) returns (done: bool)
      requires Valid() && rest.main == Listening
      modifies this`listener, this`rest, this`trace, this`states
      ensures Valid() && (done <==> ch.sock !in old(rest.open) && ch.addr !in old(rest.ctxs) && locker == None)
      ensures if done then Took(old(Abs()), old(trace), old(states), MainStep(ch))
                        && rest.main == Arming && listener == Some(ch.addr)
              else Abs() == old(Abs()) && rest == old(rest) && trace == old(trace)
      ensures done
      ensures done ==> ch.addr in rest.ctxs && Blank(rest.ctxs[ch.addr], ch.sock, IOAccept)
                       && rest.keyOf == old(rest.keyOf)[ch.sock := ch.addr]
                       && rest.open == old(rest.open) + {ch.sock}
      ensures old(trace) <= trace
    {
      NothingIsOpen();
      NewIsBlank(ch.sock, IOAccept);
      hide Execution, PathOf, StepWorker, Blank;
      ghost var s := Abs();
      done := ch.sock !in rest.open && ch.addr !in rest.ctxs && locker == None;
      if done {
        listener := Some(ch.addr);
        rest := SetCtx(rest, ch.addr, NewCtx(ch.sock, IOAccept))
                .(open := rest.open + {ch.sock}, keyOf := rest.keyOf[ch.sock := ch.addr], main := Arming);
        Record(s, MainStep(ch));
      }
    }

    /** start_accept in init_accept: the first accept socket. */
    method FirstAcceptSocket(ch: Choice) returns (done: bool)
      requires Valid() && rest.main == Arming
      modifies this`rest, this`trace, this`states
      ensures Valid() && (done <==> ch.sock !in old(rest.open))
      ensures if done then Took(old(Abs()), old(trace), old(states), MainStep(ch)) && rest.main == ArmPost
              else Abs() == old(Abs()) && rest == old(rest) && trace == old(trace)
      ensures old(trace) <= trace
    {
      MainKnown();
      hide Execution, PathOf, StepWorker;
      ghost var s := Abs();
      done := ch.sock !in rest.open;
      if done {
        var x := rest.ctxs[listener.value];
        rest := SetCtx(rest, listener.value, x.(accepted := Some(ch.sock)))
                .(open := rest.open + {ch.sock}, main := ArmPost);
        Record(s, MainStep(ch));
      }
    }

    /** start_accept in init_accept: the first AcceptEx. */
    method FirstAcceptEx() returns (done: bool)
      requires Valid() && rest.main == ArmPost
      modifies this`rest, this`trace, this`states
      ensures Valid()
      ensures if done then Took(old(Abs()), old(trace), old(states), MainStep(FINE)) && rest.main == Serving
              else Abs() == old(Abs()) && rest == old(rest) && trace == old(trace)
      ensures done && listener.Some? && listener.value in rest.ctxs && rest.ctxs[listener.value].socket.Some?
      ensures AcceptPosted(old(Abs()), Abs(), listener.value, true)
      ensures old(trace) <= trace
    {
      MainKnown();
      StillListens();
      hide Execution, PathOf, StepWorker;
      ghost var s := Abs();
      var l := listener.value;
      done := rest.ctxs[l].socket.Some?;
      if done {
        rest := rest.(kernel := rest.kernel + [Pending(l, l, AcceptOp(rest.ctxs[l].accepted.value))], main := Serving);
        Record(s, MainStep(FINE));
      }
    }

    /**
     TcpServer::Start. It can only fail to serve when the system hands out for the accept socket a handle that is
     open already, which is no answer of the system.
     */
    method Start() returns (connected: bool, ch: Choice)
      requires Valid() && rest.main == Boot
      modifies this
      ensures Valid() && old(trace) <= trace && (connected ==> rest.main == Serving)
      ensures !connected ==> rest.main == Arming && ch.sock in rest.open
      ensures turn == old(turn) + if connected then 4 else 3
    {
      hide Step, Interference, Valid, Abs, Took, Own, MapsTo, Notified, EntryErased, SocketClosed, Unlisted, Freed,
           Created, ConnectionMapped, Delivered, ReceivePosted, AcceptSocketSet, AcceptPosted, Armed;
      ch := Others(None);
      StartHandler();
      ch := Others(None);
      connected := CreateListener(ch);
      ch := Others(None);
      connected := FirstAcceptSocket(ch);
      if connected {
        var _ := Others(None);
        connected := FirstAcceptEx();
      }
    }

    method SetExiting()
      requires Valid() && rest.main == Serving
      modifies this`exiting, this`rest, this`trace, this`states
      ensures Valid() && Took(old(Abs()), old(trace), old(states), MainStep(FINE)) && exiting && rest.main == Posting(0)
      ensures rest.workers == old(rest.workers)
      ensures old(trace) <= trace
    {
      hide Execution, PathOf, StepWorker;
      ghost var s := Abs();
      exiting := true;
      rest := rest.(main := Posting(0));
      Record(s, MainStep(FINE));
    }

    /** PostQueuedCompletionStatus, unless iocp_handle_ is null. */
    method PostExit(i: nat)
      requires Valid() && rest.main == Posting(i) && i < |rest.workers|
      modifies this`rest, this`trace, this`states
      ensures Valid() && Took(old(Abs()), old(trace), old(states), MainStep(FINE)) && rest.main == Posting(i + 1)
      ensures rest.workers == old(rest.workers)
      ensures rest.queue == old(rest.queue) + if port then [ExitPacket] else []
      ensures old(trace) <= trace
    {
      hide Execution, PathOf, StepWorker;
      ghost var s := Abs();
      if port {
        rest := rest.(main := Posting(i + 1), queue := rest.queue + [ExitPacket]);
      } else {
        rest := rest.(main := Posting(i + 1));
        assert s.queue + [] == s.queue;
      }
      Record(s, MainStep(FINE));
    }

    /** The wait for the workers ends, with all of them or after its 1000 ms. */
    method AfterWait()
      requires Valid() && rest.main == Posting(|rest.workers|)
      modifies this`rest, this`trace, this`states
      ensures Valid() && Took(old(Abs()), old(trace), old(states), MainStep(FINE)) && rest.main == Closing
      ensures old(trace) <= trace
    {
      hide Execution, PathOf, StepWorker;
      ghost var s := Abs();
      rest := rest.(main := Closing);
      Record(s, MainStep(FINE));
    }

    method CloseListener()
      requires Valid() && rest.main == Closing
      modifies this`rest, this`trace, this`states
      ensures Valid() && Took(old(Abs()), old(trace), old(states), MainStep(FINE)) && rest.main == Stopped && exiting
      ensures listener.Some? && listener.value in rest.ctxs && rest.ctxs[listener.value].socket == None
      ensures old(trace) <= trace
    {
      MainKnown();
      StillListens();
      hide Valid, Took, Abs;
      if rest.ctxs[listener.value].socket.Some? {
        CloseOpenListener();
      }
    }

    method CloseOpenListener()
      requires Valid() && rest.main == Closing
      requires listener.Some? && listener.value in rest.ctxs && rest.ctxs[listener.value].socket.Some?
      modifies this`rest, this`trace, this`states
      ensures Valid() && Took(old(Abs()), old(trace), old(states), MainStep(FINE)) && rest.main == Stopped
      ensures listener.value in rest.ctxs && rest.ctxs[listener.value].socket == None
      ensures old(trace) <= trace
    {
      hide Execution, PathOf, StepWorker;
      ghost var s := Abs();
      var x := rest.ctxs[listener.value];
      rest := SetCtx(CloseSocket(rest, x.socket.value), listener.value, x.(socket := None)).(main := Stopped);
      Record(s, MainStep(FINE));
    }

    /** TcpServer::Stop: the flag, one exit packet for each worker, the wait, the listening socket. */
    method Stop()
      requires Valid() && rest.main == Serving
      modifies this
      ensures Valid() && old(trace) <= trace && rest.main == Stopped && exiting
      ensures listener.Some? && listener.value in rest.ctxs && rest.ctxs[listener.value].socket == None
      ensures port ==> Shutdown.Exits(Abs()) >= threads
      ensures turn == old(turn) + |old(rest.workers)| + 1
    {
      hide Step, Interference, Valid, Abs, Took, Own, MapsTo, Notified, EntryErased, SocketClosed, Unlisted, Freed,
           Created, ConnectionMapped, Delivered, ReceivePosted, AcceptSocketSet, AcceptPosted, Armed;
      SetExiting();
      for i := 0 to |rest.workers|
        invariant Valid() && old(trace) <= trace && rest.main == Posting(i) && |rest.workers| == |old(rest.workers)|
        invariant turn == old(turn) + i
      {
        PostExit(i);
        var _ := Others(None);
      }
      AfterWait();
      var _ := Others(None);
      CloseListener();
      PacketsPosted();
    }

    /** Had the port been there to the end, every worker has its exit packet, or needs none. */
    ghost method PacketsPosted()
      requires Valid() && rest.main == Stopped && exiting
      ensures port ==> Shutdown.Exits(Abs()) >= threads
    {
      Shutdown.ExecutionCovers(threads, History(states, trace), |trace|);
      Shutdown.SameWorkers(threads, History(states, trace), |trace|);
    }

    ghost method ConnectionKnown(me: nat, c: CtxId, back: Option<CtxId>)
      requires Valid() && At(me, Disc(Notify, c, back))
      ensures HasConnection(Abs(), c)
      ensures c in rest.ctxs && rest.ctxs[c].socket.Some? && rest.ctxs[c].socket.value in conns
      ensures conns[rest.ctxs[c].socket.value].Some? && conns[rest.ctxs[c].socket.value].value < |rest.objs|
    {
      hide Execution, PathOf, StepWorker;
      Known(me);
    }

    /** What worker `me` may rely on. */
    ghost method Known(me: nat)
      requires Valid() && me < |rest.workers|
      ensures Ready(Abs(), rest.workers[me])
    {
      ExecutionKeepsInv(threads, History(states, trace), |trace|);
      AlwaysReady(Abs(), me);
    }

    ghost method PortKnown(me: nat)
      requires Valid() && me < |rest.workers| && rest.workers[me].AccCreate?
      ensures port
    {
      ExecutionKeepsInv(threads, History(states, trace), |trace|);
      if !port {
        Drain.NobodyAccepts(Abs(), me);
      }
    }
  }
}
