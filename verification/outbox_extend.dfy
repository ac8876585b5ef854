/** Batches that only extend the queue: each operation is accepted, and what was queued before is left alone. */
module OutboxExtend {
  import opened Ids
  import opened Naming
  import opened Optional
  import opened Outbox
  import opened OutboxEnqueue
  import opened OutboxBatch
  import opened OutboxProgress

  // ---------------------------------------------------------------- the queue, extended

  /** The queue with the given operations behind it, all pending. */
  function Extend(s: State, kept: seq<Mutation>): State {
    if kept == [] then s else Appended(Extend(s, kept[..|kept| - 1]), kept[|kept| - 1])
  }

  function ObjsOf(kept: seq<Mutation>): set<Uuid> {
    if kept == [] then {} else ObjsOf(kept[..|kept| - 1]) + {kept[|kept| - 1].obj}
  }

  /** Every operation of the batch is accepted, and all that happens to the queue is that `kept` is appended. */
  predicate Clean(s: State, ms: seq<Mutation>, kept: seq<Mutation>) {
    EnqueueAll(Running(s, {}), ms) == Running(Extend(s, kept), ObjsOf(kept))
  }

  predicate Foreign(kept: seq<Mutation>, o: Uuid) {
    forall i :: 0 <= i < |kept| ==> kept[i].obj != o
  }

  /** The last queued operation of an object. */
  function Last(s: State, id: Uuid): Option<Uuid> {
    LastQueued(s, id, |s.rows|)
  }

  // ---------------------------------------------------------------- the extended queue

  lemma ExtendLast(s: State, kept: seq<Mutation>, m: Mutation)
    ensures Extend(s, kept + [m]) == Appended(Extend(s, kept), m) && ObjsOf(kept + [m]) == ObjsOf(kept) + {m.obj}
  {
    assert (kept + [m])[..|kept + [m]| - 1] == kept;
  }

  lemma {:induction false} ExtendIs(s: State, kept: seq<Mutation>)
    ensures var t := Extend(s, kept);
            && |t.rows| == |s.rows| + |kept| && t.baselines == s.baselines && t.recoveries == s.recoveries
            && t.met == s.met
            && (forall i :: 0 <= i < |s.rows| ==> t.rows[i] == s.rows[i])
            && (forall i :: 0 <= i < |kept| ==> t.rows[|s.rows| + i] == Row(kept[i], Pending))
  {
    if kept != [] {
      ExtendIs(s, kept[..|kept| - 1]);
    }
  }

  lemma CountLast(s: State, o: Uuid, m: Mutation)
    ensures var t := Appended(s, m);
            Count(t, o, |t.rows|) == Count(s, o, |s.rows|) + (if m.obj == o then 1 else 0)
    ensures LastQueued(Appended(s, m), o, |s.rows| + 1) == if m.obj == o then Some(m.op) else LastQueued(s, o, |s.rows|)
  {
    AppendedCount(s, m, o, |s.rows|);
    LastKept(s, m, o, |s.rows|);
  }

  lemma {:induction false} LastKept(s: State, m: Mutation, o: Uuid, n: nat)
    requires n <= |s.rows|
    ensures LastQueued(Appended(s, m), o, n) == LastQueued(s, o, n)
  {
    if n > 0 {
      LastKept(s, m, o, n - 1);
    }
  }

  lemma ForeignInit(kept: seq<Mutation>, o: Uuid)
    requires kept != [] && Foreign(kept, o)
    ensures Foreign(kept[..|kept| - 1], o) && kept[|kept| - 1].obj != o
  {
  }

  /** Operations of other objects leave an object's projection alone. */
  lemma {:induction false} ExtendProjection(s: State, kept: seq<Mutation>, o: Uuid)
    requires Foreign(kept, o)
    ensures var t := Extend(s, kept);
            Count(t, o, |t.rows|) == Count(s, o, |s.rows|) && LastQueued(t, o, |t.rows|) == LastQueued(s, o, |s.rows|)
            && t.baselines == s.baselines
  {
    if kept != [] {
      var init := kept[..|kept| - 1];
      ForeignInit(kept, o);
      ExtendProjection(s, init, o);
      CountLast(Extend(s, init), o, kept[|kept| - 1]);
      assert init + [kept[|kept| - 1]] == kept;
      ExtendLast(s, init, kept[|kept| - 1]);
      hide Count, LastQueued, Extend, Foreign;
    }
  }

  lemma {:induction false} ObjsAre(kept: seq<Mutation>, o: Uuid)
    ensures o in ObjsOf(kept) <==> !Foreign(kept, o)
  {
    if kept != [] {
      var init := kept[..|kept| - 1];
      ObjsAre(init, o);
      if Foreign(init, o) && kept[|kept| - 1].obj != o {
        assert Foreign(kept, o);
      }
      if Foreign(kept, o) {
        ForeignInit(kept, o);
      } else if !Foreign(init, o) {
        var i :| 0 <= i < |init| && init[i].obj == o;
        assert kept[i].obj == o;
      }
    }
  }

  predicate HasKept(kept: seq<Mutation>, op: Uuid) {
    exists i :: 0 <= i < |kept| && kept[i].op == op
  }

  lemma ExtendHas(s: State, kept: seq<Mutation>, op: Uuid)
    ensures var t := Extend(s, kept); HasOp(t, |t.rows|, op) <==> HasOp(s, |s.rows|, op) || HasKept(kept, op)
  {
    var t := Extend(s, kept);
    ExtendIs(s, kept);
    hide Extend;
    if HasOp(t, |t.rows|, op) {
      var j :| 0 <= j < |t.rows| && t.rows[j].m.op == op;
      if j >= |s.rows| {
        assert t.rows[|s.rows| + (j - |s.rows|)].m == kept[j - |s.rows|];
      } else {
        assert s.rows[j].m.op == op;
      }
    }
    if HasOp(s, |s.rows|, op) {
      var j :| 0 <= j < |s.rows| && s.rows[j].m.op == op;
      assert t.rows[j].m.op == op;
    }
    if HasKept(kept, op) {
      var i :| 0 <= i < |kept| && kept[i].op == op;
      assert t.rows[|s.rows| + i].m.op == op;
    }
  }

  // ---------------------------------------------------------------- one more operation

  lemma EnqueueNext(s: State, ms: seq<Mutation>, m: Mutation)
    ensures EnqueueAll(Running(s, {}), ms + [m]) == EnqueueOne(EnqueueAll(Running(s, {}), ms), m)
  {
    assert (ms + [m])[..|ms + [m]| - 1] == ms;
  }

  lemma CleanIs(s: State, ms: seq<Mutation>, kept: seq<Mutation>)
    ensures Clean(s, ms, kept) <==> EnqueueAll(Running(s, {}), ms) == Running(Extend(s, kept), ObjsOf(kept))
  {
  }

  /** The operation is still to be answered. */
  predicate QueuedOp(s: State, op: Uuid) {
    exists j :: 0 <= j < |s.rows| && s.rows[j].m.op == op && Queued(s.rows[j].status)
  }

  lemma QueuedHas(s: State, op: Uuid)
    requires QueuedOp(s, op)
    ensures HasOp(s, |s.rows|, op)
  {
  }

  /** A new operation that waits for queued operations and operations of the batch only. */
  predicate NewHere(s: State, kept: seq<Mutation>, m: Mutation) {
    && !HasOp(s, |s.rows|, m.op) && !HasKept(kept, m.op)
    && forall d :: d in Deps(m) ==> QueuedOp(s, d) || HasKept(kept, d)
  }

  lemma InsertableNow(s: State, kept: seq<Mutation>, m: Mutation)
    requires NewHere(s, kept, m)
    ensures Insertable(Extend(s, kept), m)
  {
    var t := Extend(s, kept);
    hide Extend, HasOp, QueuedOp, HasKept, Deps;
    ExtendHas(s, kept, m.op);
    forall d | d in Deps(m)
      ensures HasOp(t, |t.rows|, d)
    {
      ExtendHas(s, kept, d);
      if QueuedOp(s, d) {
        QueuedHas(s, d);
      }
    }
  }

  lemma {:induction false} NoneQueued(s: State, o: Uuid, n: nat, j: nat)
    requires j < n <= |s.rows| && Count(s, o, n) == 0
    ensures !QueuedOf(s, o, j)
  {
    if j < n - 1 {
      NoneQueued(s, o, n - 1, j);
    }
  }

  /** An object that is not durable may be created, and its queue has nothing to coalesce. */
  lemma CreateFits(s: State, m: Mutation)
    requires m.kind == Create && !Durable(s, m.obj)
    ensures CreateAllowed(s, m.obj) && Coalesced(s, m) == s && ProjectionOk(s, m.obj) && !Redundant(s, m)
  {
    forall j | 0 <= j < |s.rows| && s.rows[j].m.obj == m.obj
      ensures !Queued(s.rows[j].status)
    {
      NoneQueued(s, m.obj, |s.rows|, j);
      assert !QueuedOf(s, m.obj, j);
    }
    hide Count, Referenced;
    assert Coalesced(s, m).rows == s.rows;
  }

  lemma DurableSame(s: State, kept: seq<Mutation>, o: Uuid)
    requires Foreign(kept, o)
    ensures var t := Extend(s, kept);
            Durable(t, o) == Durable(s, o) && Projected(t, o) == Projected(s, o)
                && ProjectionOk(t, o) == ProjectionOk(s, o)
            && Last(t, o) == Last(s, o)
  {
    ExtendProjection(s, kept, o);
    hide Extend, Count, LastQueued;
  }

  lemma AdmitsFirst(b: Batch, m: Mutation)
    requires b.Running? && ValidMutation(m) && !Redundant(b.s, m) && Admitted(b.s, m) && m.obj !in b.coalesced
             && Coalesced(b.s, m) == b.s
    ensures EnqueueOne(b, m) == Running(Appended(b.s, m), b.coalesced + {m.obj})
  {
    hide ValidMutation, Redundant, Admitted, Coalesced;
  }

  lemma AdmitsNext(b: Batch, m: Mutation)
    requires b.Running? && ValidMutation(m) && !Redundant(b.s, m) && Admitted(b.s, m) && m.obj in b.coalesced
    ensures EnqueueOne(b, m) == Running(Appended(b.s, m), b.coalesced)
  {
    hide ValidMutation, Redundant, Admitted, Coalesced;
  }

  lemma AdmittedCreate(t: State, m: Mutation)
    requires ValidMutation(m) && ProjectionOk(t, m.obj) && m.kind == Create && CreateAllowed(t, m.obj)
             && Insertable(t, m)
    ensures Admitted(t, m)
  {
    hide ValidMutation, ProjectionOk, CreateAllowed, Insertable;
  }

  lemma AdmittedFollow(t: State, m: Mutation)
    requires ValidMutation(m) && ProjectionOk(t, m.obj) && m.kind != Create && FollowsProjection(t, m)
             && Insertable(t, m)
    ensures Admitted(t, m)
  {
    hide ValidMutation, ProjectionOk, FollowsProjection, Insertable;
  }

  /** A create of an object nothing is known of is accepted. */
  lemma KeepCreate(s: State, ms: seq<Mutation>, kept: seq<Mutation>, m: Mutation)
    requires Clean(s, ms, kept) && m.kind == Create && ValidMutation(m) && !Durable(s, m.obj) && Foreign(kept, m.obj)
    requires NewHere(s, kept, m)
    ensures Clean(s, ms + [m], kept + [m])
  {
    var t := Extend(s, kept);
    hide *;
    CleanIs(s, ms, kept);
    CleanIs(s, ms + [m], kept + [m]);
    EnqueueNext(s, ms, m);
    DurableSame(s, kept, m.obj);
    CreateFits(t, m);
    InsertableNow(s, kept, m);
    AdmittedCreate(t, m);
    ObjsAre(kept, m.obj);
    AdmitsFirst(Running(t, ObjsOf(kept)), m);
    ExtendLast(s, kept, m);
  }

  lemma CoalescesNothing(s: State, m: Mutation, j: nat)
    requires Coalesced(s, m) == s && j < |s.rows|
    ensures !Coalesces(s, m, j)
  {
    assert Coalesced(s, m).rows[j] == s.rows[j];
  }

  lemma ReferencedStays(s: State, kept: seq<Mutation>, j: nat)
    requires Referenced(s, j)
    ensures Referenced(Extend(s, kept), j)
  {
    ExtendIs(s, kept);
    var t := Extend(s, kept);
    var i :| j < i < |s.rows| && Dep(s, i, j);
    hide Extend, Deps;
    assert Dep(t, i, j);
  }

  lemma CoalescesSame(s: State, kept: seq<Mutation>, m: Mutation, j: nat)
    requires Foreign(kept, m.obj) && Coalesces(Extend(s, kept), m, j)
    ensures j < |s.rows| && Coalesces(s, m, j)
  {
    ExtendIs(s, kept);
    var t := Extend(s, kept);
    hide Extend, Deps, Referenced;
    assert j >= |s.rows| ==> t.rows[|s.rows| + (j - |s.rows|)].m == kept[j - |s.rows|];
    if Referenced(s, j) {
      ReferencedStays(s, kept, j);
    }
  }

  lemma CoalescedIs(t: State, m: Mutation)
    requires forall j :: 0 <= j < |t.rows| ==> !Coalesces(t, m, j)
    ensures Coalesced(t, m) == t
  {
    hide Coalesces;
    assert Coalesced(t, m).rows == t.rows;
  }

  lemma FollowCoalescesNothing(s: State, kept: seq<Mutation>, m: Mutation)
    requires Foreign(kept, m.obj) && ObjectOk(s, m.obj) && FollowsProjection(s, m)
    ensures Coalesced(Extend(s, kept), m) == Extend(s, kept)
  {
    var t := Extend(s, kept);
    hide *;
    FollowerCoalescesNothing(s, m);
    forall j | 0 <= j < |t.rows|
      ensures !Coalesces(t, m, j)
    {
      if Coalesces(t, m, j) {
        CoalescesSame(s, kept, m, j);
        CoalescesNothing(s, m, j);
      }
    }
    CoalescedIs(t, m);
  }

  lemma FollowsSame(s: State, kept: seq<Mutation>, m: Mutation)
    requires Foreign(kept, m.obj) && FollowsProjection(s, m)
    ensures FollowsProjection(Extend(s, kept), m)
  {
    DurableSame(s, kept, m.obj);
    hide Extend, Durable, Projected, LastQueued, Deps;
  }

  function Queue(s: State, kept: seq<Mutation>, m: Mutation): seq<Mutation> {
    if Redundant(Extend(s, kept), m) then kept else kept + [m]
  }

  lemma SkipsRedundant(b: Batch, m: Mutation)
    requires b.Running? && ValidMutation(m) && Redundant(b.s, m)
    ensures EnqueueOne(b, m) == b
  {
    hide ValidMutation, Redundant;
  }

  lemma QueueIs(s: State, kept: seq<Mutation>, m: Mutation)
    ensures Queue(s, kept, m) == if Redundant(Extend(s, kept), m) then kept else kept + [m]
    ensures m.kind != Move || m.otype != Folder ==> Queue(s, kept, m) == kept + [m]
  {
    hide Extend;
  }

  /** An object's first operation of the batch that follows its projection is accepted, and supersedes nothing; a folder
      move already done by a recovery's create is dropped. */
  lemma KeepFollow(s: State, ms: seq<Mutation>, kept: seq<Mutation>, m: Mutation)
    requires Clean(s, ms, kept) && m.kind != Create && ValidMutation(m) && Foreign(kept, m.obj)
    requires ObjectOk(s, m.obj) && FollowsProjection(s, m) && ProjectionOk(s, m.obj) && NewHere(s, kept, m)
    ensures Clean(s, ms + [m], Queue(s, kept, m))
  {
    var t := Extend(s, kept);
    hide *;
    CleanIs(s, ms, kept);
    CleanIs(s, ms + [m], Queue(s, kept, m));
    EnqueueNext(s, ms, m);
    QueueIs(s, kept, m);
    if Redundant(t, m) {
      SkipsRedundant(Running(t, ObjsOf(kept)), m);
    } else {
      DurableSame(s, kept, m.obj);
      FollowsSame(s, kept, m);
      InsertableNow(s, kept, m);
      AdmittedFollow(t, m);
      FollowCoalescesNothing(s, kept, m);
      ObjsAre(kept, m.obj);
      AdmitsFirst(Running(t, ObjsOf(kept)), m);
      ExtendLast(s, kept, m);
    }
  }

  lemma SecondFollows(t: State, first: Mutation, m: Mutation)
    requires m.obj == first.obj && m.base == Projected(t, first.obj) + 1 && first.op in Deps(m)
    ensures FollowsProjection(Appended(t, first), m)
    ensures m.base <= MAX_INT64 ==> ProjectionOk(Appended(t, first), m.obj)
  {
    CountLast(t, m.obj, first);
    hide Count, LastQueued, Deps;
  }

  lemma NotRedundant(t: State, m: Mutation)
    requires m.kind != Move
    ensures !Redundant(t, m)
  {
  }

  lemma ValidBase(m: Mutation)
    requires ValidMutation(m)
    ensures m.base <= MAX_INT64
  {
    hide ValidOperationId, ValidObjectId, ValidComponent, Deps, ShapeOk;
  }

  /** An update right after the same note's move is accepted too. */
  lemma KeepSecond(s: State, ms: seq<Mutation>, kept: seq<Mutation>, first: Mutation, m: Mutation)
    requires Clean(s, ms, kept + [first]) && Foreign(kept, first.obj) && m.obj == first.obj && m.kind == Update
             && ValidMutation(m)
    requires m.base == Projected(s, m.obj) + 1 && first.op in Deps(m) && NewHere(s, kept + [first], m)
    ensures Clean(s, ms + [m], kept + [first] + [m])
  {
    var t := Extend(s, kept);
    hide *;
    CleanIs(s, ms, kept + [first]);
    CleanIs(s, ms + [m], kept + [first] + [m]);
    EnqueueNext(s, ms, m);
    DurableSame(s, kept, first.obj);
    ExtendLast(s, kept, first);
    ExtendLast(s, kept + [first], m);
    SecondFollows(t, first, m);
    ValidBase(m);
    InsertableNow(s, kept + [first], m);
    AdmittedFollow(Appended(t, first), m);
    NotRedundant(Appended(t, first), m);
    assert m.obj in ObjsOf(kept + [first]);
    AdmitsNext(Running(Appended(t, first), ObjsOf(kept + [first])), m);
  }

  /** One that would run past the largest revision is refused, and with it the batch. */
  lemma RefusedBase(s: State, ms: seq<Mutation>, m: Mutation)
    requires m.base > MAX_INT64
    ensures EnqueueAll(Running(s, {}), ms + [m]) == Failed
  {
    EnqueueNext(s, ms, m);
    hide ValidOperationId, ValidObjectId, ValidComponent, Deps, ShapeOk, EnqueueAll;
  }

  lemma StaysFailed(s: State, ms: seq<Mutation>, m: Mutation)
    requires EnqueueAll(Running(s, {}), ms) == Failed
    ensures EnqueueAll(Running(s, {}), ms + [m]) == Failed
  {
    EnqueueNext(s, ms, m);
    hide EnqueueAll;
  }

  // ---------------------------------------------------------------- chains and stranding

  predicate About(ms: seq<Mutation>, done: set<Uuid>) {
    forall i :: 0 <= i < |ms| ==> ms[i].obj in done
  }

  /** The batch is about the objects `done`, creates each at most once and waits for nothing superseded. */
  predicate Tame(s: State, ms: seq<Mutation>, done: set<Uuid>) {
    CreatesAlone(s, ms) && LiveSteps(s, ms) && About(ms, done)
  }

  /** The operations kept are new to the queue. */
  predicate KeptNew(s: State, kept: seq<Mutation>) {
    forall i :: 0 <= i < |kept| ==> !HasOp(s, |s.rows|, kept[i].op)
  }

  lemma RowUnique(s: State, i: nat, j: nat)
    requires WellFormed(s) && i < |s.rows| && j < |s.rows| && s.rows[i].m.op == s.rows[j].m.op
    ensures i == j
  {
    hide Deps;
  }

  lemma KeptNotOld(s: State, kept: seq<Mutation>, op: Uuid)
    requires KeptNew(s, kept) && HasOp(s, |s.rows|, op)
    ensures !HasKept(kept, op)
  {
    hide HasOp;
  }

  lemma DepsLiveNow(s: State, kept: seq<Mutation>, m: Mutation)
    requires WellFormed(s) && KeptNew(s, kept) && NewHere(s, kept, m)
    ensures DepsLive(Extend(s, kept), m)
  {
    var t := Extend(s, kept);
    ExtendIs(s, kept);
    hide Extend, Deps, WellFormed;
    forall j | 0 <= j < |t.rows| && t.rows[j].m.op in Deps(m)
      ensures t.rows[j].status != Superseded
    {
      var d := t.rows[j].m.op;
      if j < |s.rows| {
        assert HasOp(s, |s.rows|, d);
        KeptNotOld(s, kept, d);
        var i :| 0 <= i < |s.rows| && s.rows[i].m.op == d && Queued(s.rows[i].status);
        RowUnique(s, i, j);
      } else {
        assert t.rows[|s.rows| + (j - |s.rows|)] == Row(kept[j - |s.rows|], Pending);
      }
    }
  }

  lemma LiveNext(s: State, ms: seq<Mutation>, kept: seq<Mutation>, m: Mutation)
    requires LiveSteps(s, ms) && Clean(s, ms, kept) && DepsLive(Extend(s, kept), m)
    ensures LiveSteps(s, ms + [m])
  {
    assert (ms + [m])[..|ms + [m]| - 1] == ms;
    hide Extend, DepsLive, EnqueueAll, ObjsOf;
  }

  lemma NotCreatedYet(ms: seq<Mutation>, done: set<Uuid>, o: Uuid)
    requires About(ms, done) && o !in done
    ensures !CreatedIn(ms, o)
  {
  }

  lemma NamesNone(s: State, m: Mutation)
    requires m.kind == Create ==> !Durable(s, m.obj)
    ensures NamesNoOwn(s, m)
  {
    if m.kind == Create {
      forall j | 0 <= j < |s.rows|
        ensures !QueuedOf(s, m.obj, j)
      {
        NoneQueued(s, m.obj, |s.rows|, j);
      }
    }
    hide QueuedOf, Deps, Count;
  }

  lemma AboutNext(ms: seq<Mutation>, done: set<Uuid>, m: Mutation)
    requires About(ms, done)
    ensures About(ms + [m], done + {m.obj}) && About(ms, done + {m.obj})
  {
  }

  lemma TameIs(s: State, ms: seq<Mutation>, done: set<Uuid>)
    ensures Tame(s, ms, done) <==> CreatesAlone(s, ms) && LiveSteps(s, ms) && About(ms, done)
  {
    hide CreatesAlone, LiveSteps, About;
  }

  lemma TameNext(s: State, ms: seq<Mutation>, kept: seq<Mutation>, done: set<Uuid>, m: Mutation)
    requires WellFormed(s) && Clean(s, ms, kept) && KeptNew(s, kept) && Tame(s, ms, done) && NewHere(s, kept, m)
    requires m.kind == Create ==> m.obj !in done && !Durable(s, m.obj)
    ensures Tame(s, ms + [m], done + {m.obj})
  {
    hide *;
    TameIs(s, ms, done);
    TameIs(s, ms + [m], done + {m.obj});
    CreatesAloneLast(s, ms, m);
    NamesNone(s, m);
    if m.kind == Create {
      NotCreatedYet(ms, done, m.obj);
    }
    DepsLiveNow(s, kept, m);
    LiveNext(s, ms, kept, m);
    AboutNext(ms, done, m);
  }

  lemma TameLater(s: State, ms: seq<Mutation>, done: set<Uuid>, o: Uuid)
    requires Tame(s, ms, done)
    ensures Tame(s, ms, done + {o})
  {
    hide CreatesAlone, LiveSteps;
  }

  lemma NothingTame(s: State)
    ensures Tame(s, [], {}) && Clean(s, [], [])
  {
  }

  /** A tame batch that is accepted keeps every queue a chain, and strands nobody if nobody was. */
  lemma TameKeeps(s: State, ms: seq<Mutation>, kept: seq<Mutation>, done: set<Uuid>)
    requires Invariant(s) && Clean(s, ms, kept) && Tame(s, ms, done)
    ensures Invariant(Extend(s, kept)) && (NoneStranded(s) ==> NoneStranded(Extend(s, kept)))
  {
    CleanIs(s, ms, kept);
    TameIs(s, ms, done);
    InvariantFormed(s);
    hide *;
    BatchKeeps(s, ms);
    if NoneStranded(s) {
      StepsStrandIff(s, ms);
    }
  }

  lemma InvariantFormed(s: State)
    requires Invariant(s)
    ensures WellFormed(s)
  {
    hide WellFormed, ObjectOk;
  }

  // ---------------------------------------------------------------- batches of creates

  lemma NewHereAfter(t: State, ms: seq<Mutation>, c: Mutation, d: Uuid)
    requires Deps(c) == {d} && HasKept(ms, d) && !HasKept(ms, c.op) && !HasOp(t, |t.rows|, c.op)
    ensures NewHere(t, ms, c)
  {
    hide HasKept, HasOp, QueuedOp;
  }

  lemma NewHereAlone(t: State, c: Mutation)
    requires Deps(c) == {} && !HasOp(t, |t.rows|, c.op)
    ensures NewHere(t, [], c) && Foreign([], c.obj) && KeptNew(t, [])
  {
  }

  lemma KeptNewNext(t: State, ms: seq<Mutation>, c: Mutation)
    requires KeptNew(t, ms) && !HasOp(t, |t.rows|, c.op)
    ensures KeptNew(t, ms + [c])
  {
    hide HasOp;
  }

  /** The batch so far is accepted whole, is new to the outbox, and waits for nothing superseded. */
  ghost predicate Good(t: State, ms: seq<Mutation>, done: set<Uuid>) {
    Clean(t, ms, ms) && Tame(t, ms, done) && KeptNew(t, ms)
  }

  lemma GoodIs(t: State, ms: seq<Mutation>, done: set<Uuid>)
    ensures Good(t, ms, done) <==> Clean(t, ms, ms) && Tame(t, ms, done) && KeptNew(t, ms)
  {
    hide Clean, Tame, KeptNew;
  }

  /** One more create of an object nothing is queued of. */
  lemma GoodNext(t: State, ms: seq<Mutation>, done: set<Uuid>, c: Mutation)
    requires WellFormed(t) && Good(t, ms, done) && c.kind == Create && ValidMutation(c) && !Durable(t, c.obj)
    requires Foreign(ms, c.obj) && c.obj !in done && NewHere(t, ms, c)
    ensures Good(t, ms + [c], done + {c.obj})
  {
    assert !HasOp(t, |t.rows|, c.op);
    hide *;
    GoodIs(t, ms, done);
    KeepCreate(t, ms, ms, c);
    TameNext(t, ms, ms, done, c);
    KeptNewNext(t, ms, c);
    GoodIs(t, ms + [c], done + {c.obj});
  }
}
