/** Consequences of single ownership, and how steps move contexts between places. */
module IocpOwnership {
  import opened Prelude
  import opened IocpModel
  import opened IocpInvariant

  /** What a worker holds, nobody else holds, and it is live. */
  lemma WorkerExclusive(s: State, w: nat, c: CtxId)
    requires Owned(s) && w < |s.workers| && HeldCount(s.workers[w], c) > 0
    ensures c in s.ctxs && HeldCount(s.workers[w], c) == 1
    ensures forall i :: 0 <= i < |s.kernel| ==> s.kernel[i].ov != c
    ensures forall i :: 0 <= i < |s.queue| && s.queue[i].Completion? ==> s.queue[i].ov != c
    ensures forall i :: 0 <= i < |s.dropped| ==> s.dropped[i] != c
    ensures forall j :: 0 <= j < |s.workers| && j != w ==> HeldCount(s.workers[j], c) == 0
    ensures MainHolds(s, c) == 0
  {
    assert Places(s, c) <= 1;
    SumAtLeast(s.workers, w, WorkerHolds(c));
    forall i | 0 <= i < |s.kernel| ensures s.kernel[i].ov != c {
      SumAtLeast(s.kernel, i, KernelHolds(c));
    }
    forall i | 0 <= i < |s.queue| && s.queue[i].Completion? ensures s.queue[i].ov != c {
      SumAtLeast(s.queue, i, QueueHolds(c));
    }
    forall i | 0 <= i < |s.dropped| ensures s.dropped[i] != c {
      SumAtLeast(s.dropped, i, DroppedIs(c));
    }
    forall j | 0 <= j < |s.workers| && j != w ensures HeldCount(s.workers[j], c) == 0 {
      SumAtLeastTwo(s.workers, if j < w then j else w, if j < w then w else j, WorkerHolds(c));
    }
  }

  lemma KernelExclusive(s: State, k: nat)
    requires Owned(s) && k < |s.kernel|
    ensures s.kernel[k].ov in s.ctxs
    ensures forall i :: 0 <= i < |s.kernel| && i != k ==> s.kernel[i].ov != s.kernel[k].ov
    ensures forall i :: 0 <= i < |s.queue| && s.queue[i].Completion? ==> s.queue[i].ov != s.kernel[k].ov
    ensures forall i :: 0 <= i < |s.dropped| ==> s.dropped[i] != s.kernel[k].ov
    ensures forall j :: 0 <= j < |s.workers| ==> HeldCount(s.workers[j], s.kernel[k].ov) == 0
    ensures MainHolds(s, s.kernel[k].ov) == 0
  {
    var c := s.kernel[k].ov;
    assert Places(s, c) <= 1;
    SumAtLeast(s.kernel, k, KernelHolds(c));
    forall i | 0 <= i < |s.kernel| && i != k ensures s.kernel[i].ov != c {
      SumAtLeastTwo(s.kernel, if i < k then i else k, if i < k then k else i, KernelHolds(c));
    }
    forall i | 0 <= i < |s.queue| && s.queue[i].Completion? ensures s.queue[i].ov != c {
      SumAtLeast(s.queue, i, QueueHolds(c));
    }
    forall i | 0 <= i < |s.dropped| ensures s.dropped[i] != c {
      SumAtLeast(s.dropped, i, DroppedIs(c));
    }
    forall j | 0 <= j < |s.workers| ensures HeldCount(s.workers[j], c) == 0 {
      SumAtLeast(s.workers, j, WorkerHolds(c));
    }
  }

  lemma MainExclusive(s: State, c: CtxId)
    requires Owned(s) && MainHolds(s, c) > 0
    ensures forall i :: 0 <= i < |s.kernel| ==> s.kernel[i].ov != c
    ensures forall i :: 0 <= i < |s.queue| && s.queue[i].Completion? ==> s.queue[i].ov != c
    ensures forall i :: 0 <= i < |s.dropped| ==> s.dropped[i] != c
    ensures forall j :: 0 <= j < |s.workers| ==> HeldCount(s.workers[j], c) == 0
  {
    assert Places(s, c) <= 1;
    forall i | 0 <= i < |s.kernel| ensures s.kernel[i].ov != c {
      SumAtLeast(s.kernel, i, KernelHolds(c));
    }
    forall i | 0 <= i < |s.queue| && s.queue[i].Completion? ensures s.queue[i].ov != c {
      SumAtLeast(s.queue, i, QueueHolds(c));
    }
    forall i | 0 <= i < |s.dropped| ensures s.dropped[i] != c {
      SumAtLeast(s.dropped, i, DroppedIs(c));
    }
    forall j | 0 <= j < |s.workers| ensures HeldCount(s.workers[j], c) == 0 {
      SumAtLeast(s.workers, j, WorkerHolds(c));
    }
  }

  // ---- Worker steps

  /** The common shape of a worker step: its own entry, maybe new pending operations and drops. */
  ghost predicate WorkerMoves(s: State, s': State, w: nat, posted: seq<Pending>, dropped: seq<CtxId>) {
    && w < |s.workers| && |s'.workers| == |s.workers|
    && s'.workers == s.workers[w := s'.workers[w]]
    && s'.kernel == s.kernel + posted
    && s'.queue == s.queue
    && s'.dropped == s.dropped + dropped
    && s'.main == s.main && s'.listener == s.listener
    && s'.exiting == s.exiting && s'.running == s.running
  }

  /** Where a context is after a worker step. */
  lemma PlacesAfterWorker(s: State, s': State, w: nat, posted: seq<Pending>, dropped: seq<CtxId>, c: CtxId)
    requires WorkerMoves(s, s', w, posted, dropped)
    ensures Places(s', c) + HeldCount(s.workers[w], c)
         == Places(s, c) + HeldCount(s'.workers[w], c) + Sum(posted, KernelHolds(c)) + Sum(dropped, DroppedIs(c))
  {
    SumUpdate(s.workers, w, s'.workers[w], WorkerHolds(c));
    SumConcat(s.kernel, posted, KernelHolds(c));
    SumConcat(s.dropped, dropped, DroppedIs(c));
  }

  /** The worker keeps or passes on what it held, and the live contexts change accordingly. */
  lemma OwnedAfterWorker(s: State, s': State, w: nat, posted: seq<Pending>, dropped: seq<CtxId>)
    requires Owned(s) && WorkerMoves(s, s', w, posted, dropped)
    requires Balanced(s, s', w, posted, dropped)
    ensures Owned(s')
  {
    forall c: CtxId ensures Places(s', c) == if c in s'.ctxs then 1 else 0 {
      PlacesAfterWorker(s, s', w, posted, dropped, c);
      assert Places(s, c) == if c in s.ctxs then 1 else 0;
    }
  }

  /** Everything but what worker `w` holds looks the same after the step. */
  ghost predicate DisturbsOnly(s: State, s': State, w: nat)
    requires w < |s.workers|
  {
    && s'.listener == s.listener
    && (s.exiting ==> s'.exiting)
    && forall c :: c in s.ctxs && HeldCount(s.workers[w], c) == 0 ==> Same(s, s', c)
  }

  lemma PendingUndisturbed(s: State, s': State, w: nat, i: nat)
    requires Owned(s) && Holders(s) && w < |s.workers| && DisturbsOnly(s, s', w) && i < |s.kernel|
    ensures PendingOk(s', s.kernel[i])
  {
    var c := s.kernel[i].ov;
    if HeldCount(s.workers[w], c) > 0 {
      WorkerExclusive(s, w, c);
    }
    PendingKept(s, s', s.kernel[i]);
  }

  lemma PacketUndisturbed(s: State, s': State, w: nat, i: nat)
    requires Owned(s) && Holders(s) && w < |s.workers| && DisturbsOnly(s, s', w) && i < |s.queue|
    ensures PacketOk(s', s.queue[i])
  {
    if s.queue[i].Completion? && HeldCount(s.workers[w], s.queue[i].ov) > 0 {
      WorkerExclusive(s, w, s.queue[i].ov);
    }
    PacketKept(s, s', s.queue[i]);
  }

  lemma DroppedUndisturbed(s: State, s': State, w: nat, i: nat)
    requires Owned(s) && Holders(s) && w < |s.workers| && DisturbsOnly(s, s', w) && i < |s.dropped|
    ensures DroppedOk(s', s.dropped[i])
  {
    if HeldCount(s.workers[w], s.dropped[i]) > 0 {
      WorkerExclusive(s, w, s.dropped[i]);
    }
    DroppedKept(s, s', s.dropped[i]);
  }

  lemma WorkerUndisturbed(s: State, s': State, w: nat, i: nat)
    requires Owned(s) && Holders(s) && w < |s.workers| && DisturbsOnly(s, s', w) && i < |s.workers| && i != w
    ensures WorkerOk(s', s.workers[i])
  {
    forall c | HeldCount(s.workers[i], c) > 0 ensures Same(s, s', c) {
      WorkerExclusive(s, i, c);
    }
    WorkerKept(s, s', s.workers[i]);
  }

  lemma MainUndisturbed(s: State, s': State, w: nat)
    requires Owned(s) && Holders(s) && w < |s.workers| && DisturbsOnly(s, s', w) && s'.main == s.main
    ensures MainOk(s')
  {
    if s.main == ArmPost {
      MainExclusive(s, s.listener.value);
      assert Same(s, s', s.listener.value);
    }
  }

  /** Putting the pieces of a worker step together. */
  lemma HoldersAfterWorker(s: State, s': State, w: nat, posted: seq<Pending>, dropped: seq<CtxId>)
    requires Owned(s) && Holders(s) && WorkerMoves(s, s', w, posted, dropped) && DisturbsOnly(s, s', w)
    requires WorkerOk(s', s'.workers[w])
    requires forall i :: 0 <= i < |posted| ==> PendingOk(s', posted[i])
    requires forall i :: 0 <= i < |dropped| ==> DroppedOk(s', dropped[i])
    ensures Holders(s')
  {
    forall i | 0 <= i < |s'.kernel| ensures PendingOk(s', s'.kernel[i]) {
      if i < |s.kernel| {
        PendingUndisturbed(s, s', w, i);
      } else {
        assert s'.kernel[i] == posted[i - |s.kernel|];
      }
    }
    forall i | 0 <= i < |s'.queue| ensures PacketOk(s', s'.queue[i]) {
      PacketUndisturbed(s, s', w, i);
    }
    forall i | 0 <= i < |s'.dropped| ensures DroppedOk(s', s'.dropped[i]) {
      if i < |s.dropped| {
        DroppedUndisturbed(s, s', w, i);
      } else {
        assert s'.dropped[i] == dropped[i - |s.dropped|];
      }
    }
    forall i | 0 <= i < |s'.workers| ensures WorkerOk(s', s'.workers[i]) {
      if i != w {
        WorkerUndisturbed(s, s', w, i);
      }
    }
    MainUndisturbed(s, s', w);
  }

  // ---- Assembling the invariant after a worker step

  /** The worker passes on, keeps, allocates or frees exactly what the live contexts say. */
  ghost predicate Balanced(s: State, s': State, w: nat, posted: seq<Pending>, dropped: seq<CtxId>)
    requires w < |s.workers| && w < |s'.workers|
  {
    && |posted| <= 1 && |dropped| <= 1
    && forall c: CtxId ::
         HeldCount(s'.workers[w], c)
         + (if posted != [] && posted[0].ov == c then 1 else 0) + (if dropped != [] && dropped[0] == c then 1 else 0)
         + (if c in s.ctxs then 1 else 0)
         == HeldCount(s.workers[w], c) + (if c in s'.ctxs then 1 else 0)
  }

  lemma LockerAfterWorker(s: State, s': State, w: nat, posted: seq<Pending>, dropped: seq<CtxId>)
    requires LockerOk(s) && WorkerMoves(s, s', w, posted, dropped)
    requires s'.locker == s.locker && Inside(s'.workers[w]) == Inside(s.workers[w])
    ensures LockerOk(s')
  {
  }

  lemma MainPhaseAfterWorker(s: State, s': State, w: nat, posted: seq<Pending>, dropped: seq<CtxId>)
    requires MainPhaseOk(s) && WorkerMoves(s, s', w, posted, dropped)
    requires s'.port == s.port || (s.listener.Some? && s.listener.value in dropped)
    ensures MainPhaseOk(s')
  {
  }

  /** All tables are the same. */
  ghost predicate SameTables(s: State, s': State) {
    && s'.listener == s.listener
    && s'.list == s.list && s'.conns == s.conns && s'.ctxs == s.ctxs && s'.objs == s.objs
    && s'.open == s.open && s'.keyOf == s.keyOf && s'.peerOf == s.peerOf && s'.peers == s.peers
  }

  lemma SameTablesSame(s: State, s': State, c: CtxId)
    requires SameTables(s, s') && c in s.ctxs
    ensures Same(s, s', c)
  {
  }

  /** A step that touches none of the tables, nor the main thread. */
  ghost predicate Quiet(s: State, s': State) {
    SameTables(s, s') && s'.main == s.main
  }

  lemma QuietTables(s: State, s': State)
    requires Tables(s) && Quiet(s, s')
    ensures ListenerOk(s') && KeysOk(s') && PeersOk(s') && ConnsOk(s') && ObjsOk(s') && ListOk(s')
  {
    forall k | 0 <= k < |s'.objs| ensures ObjOk(s', k) {
      assert ObjOk(s, k);
    }
  }

  /** What a step leaves to the places it fills: the worker, the new pending operations, the new drops. */
  ghost predicate Handed(s': State, w: nat, posted: seq<Pending>, dropped: seq<CtxId>) {
    && w < |s'.workers|
    && WorkerOk(s', s'.workers[w])
    && (forall i :: 0 <= i < |posted| ==> PendingOk(s', posted[i]))
    && (forall i :: 0 <= i < |dropped| ==> DroppedOk(s', dropped[i]))
  }

  ghost predicate QuietMove(s: State, s': State, w: nat, posted: seq<Pending>, dropped: seq<CtxId>) {
    && WorkerMoves(s, s', w, posted, dropped)
    && Quiet(s, s')
    && Balanced(s, s', w, posted, dropped)
    && Handed(s', w, posted, dropped)
    && LockerOk(s')
    && (s'.port == s.port || (s.listener.Some? && s.listener.value in dropped))
  }

  lemma QuietStep(s: State, s': State, w: nat, posted: seq<Pending>, dropped: seq<CtxId>)
    requires Inv(s) && QuietMove(s, s', w, posted, dropped)
    ensures Inv(s')
  {
    forall c | c in s.ctxs ensures Same(s, s', c) {
      SameTablesSame(s, s', c);
    }
    OwnedAfterWorker(s, s', w, posted, dropped);
    HoldersAfterWorker(s, s', w, posted, dropped);
    QuietTables(s, s');
    MainPhaseAfterWorker(s, s', w, posted, dropped);
  }

  /** A step that touches the tables, but only where its own contexts are concerned. */
  ghost predicate LoudMove(s: State, s': State, w: nat, posted: seq<Pending>, dropped: seq<CtxId>) {
    && WorkerMoves(s, s', w, posted, dropped)
    && DisturbsOnly(s, s', w)
    && Balanced(s, s', w, posted, dropped)
    && Handed(s', w, posted, dropped)
    && ListenerOk(s') && KeysOk(s') && PeersOk(s') && ConnsOk(s') && ObjsOk(s') && ListOk(s') && LockerOk(s')
    && s'.port == s.port
  }

  lemma LoudStep(s: State, s': State, w: nat, posted: seq<Pending>, dropped: seq<CtxId>)
    requires Inv(s) && LoudMove(s, s', w, posted, dropped)
    ensures Inv(s')
  {
    OwnedAfterWorker(s, s', w, posted, dropped);
    HoldersAfterWorker(s, s', w, posted, dropped);
    MainPhaseAfterWorker(s, s', w, posted, dropped);
  }
}
