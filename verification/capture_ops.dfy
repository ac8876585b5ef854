/** The operations captured for one object, and their acceptance behind the rest of the batch. */
module CaptureOps {
  import opened Ids
  import opened Naming
  import opened Optional
  import opened Outbox
  import opened Capture
  import opened OutboxExtend

  // ---------------------------------------------------------------- the operations of one object

  /** The parent's queued operation a move must also wait for. */
  function Additional(e: Scan, o: Observed): seq<Uuid> {
    if o.parent != NIL && Last(e.s, o.parent).Some? && Last(e.s, o.parent) != Last(e.s, o.id) then
      [Last(e.s, o.parent).value] else []
  }

  function Moves(e: Scan, gen: nat -> Uuid, k: nat, o: Observed): seq<Mutation> {
    if Moved(e, o) then [MoveOp(o, gen(k), Projected(e.s, o.id), Last(e.s, o.id), Additional(e, o))] else []
  }

  function Updates(e: Scan, gen: nat -> Uuid, k: nat, o: Observed): seq<Mutation> {
    if !Changed(e, o) || o.id in e.oversize then []
    else if Moved(e, o) then [UpdateOp(o, gen(k + 1), Projected(e.s, o.id) + 1, Some(gen(k)))]
    else [UpdateOp(o, gen(k), Projected(e.s, o.id), Last(e.s, o.id))]
  }

  /** Identifiers drawn for the object, used or not. */
  function Drawn(e: Scan, o: Observed): nat {
    (if Moved(e, o) then 1 else 0) + (if Changed(e, o) then 1 else 0)
  }

  /** An object both moved and changed needs two more revisions. */
  predicate HasRoom(e: Scan, o: Observed) {
    Moved(e, o) && Changed(e, o) && o.id !in e.oversize ==> Projected(e.s, o.id) < MAX_INT64
  }

  // ---------------------------------------------------------------- their shape

  predicate DepOk(d: Option<Uuid>, op: Uuid) {
    d.Some? ==> ValidOperationId(d.value) && d.value != op
  }

  predicate DepsOk(ds: seq<Uuid>, op: Uuid) {
    forall i :: 0 <= i < |ds| ==> ValidOperationId(ds[i]) && ds[i] != op
  }

  lemma DepsValid(m: Mutation)
    requires DepOk(m.dependency, m.op) && DepsOk(m.additional, m.op)
    ensures forall d :: d in Deps(m) ==> ValidOperationId(d) && d != m.op
  {
    hide ValidOperationId;
  }

  lemma MutationValid(m: Mutation)
    requires ValidOperationId(m.op) && ValidObjectId(m.obj) && (m.parent.Some? ==> ValidObjectId(m.parent.value))
    requires DepOk(m.dependency, m.op) && DepsOk(m.additional, m.op) && m.base <= MAX_INT64 && ShapeOk(m)
    requires m.kind == Create || m.kind == Move ==> ValidComponent(m.name)
    ensures ValidMutation(m)
  {
    DepsValid(m);
    hide ValidOperationId, ValidObjectId, ValidComponent, Deps, ShapeOk, DepOk, DepsOk;
  }

  lemma NameNotEmpty(o: Observed)
    requires ObservedOk(o)
    ensures NameOf(o) != ""
  {
    hide ValidObjectId;
  }

  lemma ObservedIs(o: Observed)
    requires ObservedOk(o)
    ensures ValidObjectId(o.id) && (ParentOf(o).Some? ==> ValidObjectId(ParentOf(o).value))
            && ValidComponent(NameOf(o)) && NameOf(o) != ""
    ensures |o.hash| == (if o.otype == Note then HASH_SIZE else 0)
  {
    NameNotEmpty(o);
    hide ValidObjectId, ValidComponent;
  }

  lemma CreateValid(o: Observed, op: Uuid, d: Option<Uuid>)
    requires ObservedOk(o) && ValidOperationId(op) && DepOk(d, op)
    ensures ValidMutation(CreateOp(o, op, d))
  {
    ObservedIs(o);
    hide ValidOperationId, ValidObjectId, ValidComponent, ObservedOk, NameOf, ParentOf;
    MutationValid(CreateOp(o, op, d));
  }

  lemma MoveValid(o: Observed, op: Uuid, base: nat, d: Option<Uuid>, ds: seq<Uuid>)
    requires ObservedOk(o) && ValidOperationId(op) && DepOk(d, op) && DepsOk(ds, op) && 0 < base <= MAX_INT64
    ensures ValidMutation(MoveOp(o, op, base, d, ds))
  {
    ObservedIs(o);
    hide ValidOperationId, ValidObjectId, ValidComponent, ObservedOk, NameOf, ParentOf;
    MutationValid(MoveOp(o, op, base, d, ds));
  }

  lemma UpdateValid(o: Observed, op: Uuid, base: nat, d: Option<Uuid>)
    requires ObservedOk(o) && o.otype == Note && ValidOperationId(op) && DepOk(d, op) && 0 < base <= MAX_INT64
    ensures ValidMutation(UpdateOp(o, op, base, d))
  {
    ObservedIs(o);
    hide ValidOperationId, ValidObjectId, ValidComponent, ObservedOk, NameOf, ParentOf;
    MutationValid(UpdateOp(o, op, base, d));
  }

  lemma DeleteValid(o: Observed, op: Uuid, base: nat, d: Option<Uuid>, ds: seq<Uuid>)
    requires ObservedOk(o) && ValidOperationId(op) && DepOk(d, op) && DepsOk(ds, op) && 0 < base <= MAX_INT64
    ensures ValidMutation(DeleteOp(o, op, base, d, ds))
  {
    ObservedIs(o);
    hide ValidOperationId, ValidObjectId, ValidComponent, ObservedOk, NameOf, ParentOf;
    MutationValid(DeleteOp(o, op, base, d, ds));
  }

  // ---------------------------------------------------------------- what they wait for

  lemma {:induction false} LastFound(s: State, o: Uuid, n: nat)
    requires n <= |s.rows| && LastQueued(s, o, n).Some?
    ensures exists j :: 0 <= j < n && s.rows[j].m.op == LastQueued(s, o, n).value && s.rows[j].m.obj == o
             && Queued(s.rows[j].status)
  {
    if !QueuedOf(s, o, n - 1) {
      LastFound(s, o, n - 1);
    }
  }

  /** A projection's operation is a valid one in the queue. */
  lemma LastKnown(s: State, o: Uuid)
    requires RowsValid(s) && Last(s, o).Some?
    ensures QueuedOp(s, Last(s, o).value) && ValidOperationId(Last(s, o).value)
  {
    LastFound(s, o, |s.rows|);
    var j :| 0 <= j < |s.rows| && s.rows[j].m.op == LastQueued(s, o, |s.rows|).value && s.rows[j].m.obj == o
        && Queued(s.rows[j].status);
    assert ValidMutation(s.rows[j].m);
    hide ValidOperationId, ValidObjectId, ValidComponent, Deps, ShapeOk, LastQueued;
  }

  /** The batch's operations carry identifiers drawn before the k-th. */
  ghost predicate KeptBelow(gen: nat -> Uuid, kept: seq<Mutation>, k: nat) {
    forall i :: 0 <= i < |kept| ==> DrawnBelow(gen, kept[i].op, k)
  }

  predicate KeptIn(kept: seq<Mutation>, done: set<Uuid>) {
    forall i :: 0 <= i < |kept| ==> kept[i].obj in done
  }

  /** The batch so far is accepted in full; it is about the objects `done`, and used identifiers before the k-th. */
  ghost predicate Batched(e: Scan, gen: nat -> Uuid, k: nat, ms: seq<Mutation>, kept: seq<Mutation>, done: set<Uuid>) {
    Clean(e.s, ms, kept) && KeptBelow(gen, kept, k) && KeptIn(kept, done) && Tame(e.s, ms, done)
  }

  lemma ForeignTo(kept: seq<Mutation>, done: set<Uuid>, o: Uuid)
    requires KeptIn(kept, done) && o !in done
    ensures Foreign(kept, o)
  {
  }

  lemma GenNew(s: State, gen: nat -> Uuid, kept: seq<Mutation>, k: nat, n: nat)
    requires FreshIds(s, gen) && KeptBelow(gen, kept, k) && n >= k
    ensures ValidOperationId(gen(n)) && !HasOp(s, |s.rows|, gen(n)) && !HasKept(kept, gen(n))
  {
    hide ValidOperationId, HasOp;
    forall i | 0 <= i < |kept|
      ensures kept[i].op != gen(n)
    {
      assert DrawnBelow(gen, kept[i].op, k);
      var j: nat :| j < k && kept[i].op == gen(j);
    }
  }

  lemma KeptValid(s: State, gen: nat -> Uuid, kept: seq<Mutation>, k: nat, op: Uuid)
    requires FreshIds(s, gen) && KeptBelow(gen, kept, k) && HasKept(kept, op)
    ensures ValidOperationId(op)
  {
    var i :| 0 <= i < |kept| && kept[i].op == op;
    assert DrawnBelow(gen, kept[i].op, k);
    var j: nat :| j < k && kept[i].op == gen(j);
    hide ValidOperationId, HasOp;
  }

  lemma BelowNext(gen: nat -> Uuid, kept: seq<Mutation>, k: nat, n: nat, m: Mutation, j: nat)
    requires KeptBelow(gen, kept, k) && k <= j < n && m.op == gen(j)
    ensures KeptBelow(gen, kept + [m], n) && KeptBelow(gen, kept, n)
  {
    BelowLater(gen, kept, k, n);
    var all := kept + [m];
    assert DrawnBelow(gen, m.op, n);
    hide DrawnBelow;
    forall i | 0 <= i < |all|
      ensures DrawnBelow(gen, all[i].op, n)
    {
      assert i < |kept| ==> all[i] == kept[i];
    }
  }

  lemma BelowLater(gen: nat -> Uuid, kept: seq<Mutation>, k: nat, n: nat)
    requires KeptBelow(gen, kept, k) && k <= n
    ensures KeptBelow(gen, kept, n)
  {
    forall i | 0 <= i < |kept|
      ensures DrawnBelow(gen, kept[i].op, n)
    {
      assert DrawnBelow(gen, kept[i].op, k);
    }
  }

  lemma InNext(kept: seq<Mutation>, done: set<Uuid>, m: Mutation)
    requires KeptIn(kept, done)
    ensures KeptIn(kept + [m], done + {m.obj}) && KeptIn(kept, done + {m.obj})
  {
  }

  lemma HasNext(kept: seq<Mutation>, m: Mutation, op: Uuid)
    ensures HasKept(kept + [m], op) <==> HasKept(kept, op) || m.op == op
  {
    var all := kept + [m];
    if HasKept(kept, op) {
      var i :| 0 <= i < |kept| && kept[i].op == op;
      assert all[i].op == op;
    }
    if m.op == op {
      assert all[|kept|].op == op;
    }
  }

  lemma BatchedIs(e: Scan, gen: nat -> Uuid, k: nat, ms: seq<Mutation>, kept: seq<Mutation>, done: set<Uuid>)
    ensures Batched(e, gen, k, ms, kept, done)
            <==> Clean(e.s, ms, kept) && KeptBelow(gen, kept, k) && KeptIn(kept, done) && Tame(e.s, ms, done)
  {
    hide Clean, KeptBelow, KeptIn, Tame;
  }

  /** What stays true of the batch's order when one more operation joins it. */
  lemma StaysTame(e: Scan, gen: nat -> Uuid, k: nat, ms: seq<Mutation>, kept: seq<Mutation>, done: set<Uuid>,
                  m: Mutation)
    requires StoreOk(e.s) && FreshIds(e.s, gen) && Clean(e.s, ms, kept) && KeptBelow(gen, kept, k)
             && Tame(e.s, ms, done)
    requires NewHere(e.s, kept, m) && (m.kind == Create ==> m.obj !in done && !Durable(e.s, m.obj))
    ensures Tame(e.s, ms + [m], done + {m.obj})
  {
    hide *;
    StoreFormed(e.s);
    forall i | 0 <= i < |kept|
      ensures !HasOp(e.s, |e.s.rows|, kept[i].op)
    {
      KeptFresh(e.s, gen, kept, k, i);
    }
    KeptNewIf(e.s, kept);
    TameNext(e.s, ms, kept, done, m);
  }

  lemma StoreFormed(s: State)
    requires StoreOk(s)
    ensures WellFormed(s)
  {
    hide WellFormed, RowsValid, ObjectOk, BaselinesStorable;
  }

  lemma KeptNewIf(s: State, kept: seq<Mutation>)
    requires forall i :: 0 <= i < |kept| ==> !HasOp(s, |s.rows|, kept[i].op)
    ensures KeptNew(s, kept)
  {
    hide HasOp;
  }

  lemma KeptFresh(s: State, gen: nat -> Uuid, kept: seq<Mutation>, k: nat, i: nat)
    requires FreshIds(s, gen) && KeptBelow(gen, kept, k) && i < |kept|
    ensures !HasOp(s, |s.rows|, kept[i].op)
  {
    hide HasOp, ValidOperationId;
    assert DrawnBelow(gen, kept[i].op, k);
  }

  lemma StoreIs(s: State, o: Uuid)
    requires StoreOk(s)
    ensures RowsValid(s) && ObjectOk(s, o) && BaselinesStorable(s)
  {
    hide RowsValid, ObjectOk, BaselinesStorable, WellFormed;
  }

  lemma NewHereIf(s: State, kept: seq<Mutation>, m: Mutation)
    requires !HasOp(s, |s.rows|, m.op) && !HasKept(kept, m.op)
    requires m.dependency.Some? ==> QueuedOp(s, m.dependency.value) || HasKept(kept, m.dependency.value)
    requires forall i :: 0 <= i < |m.additional| ==> QueuedOp(s, m.additional[i]) || HasKept(kept, m.additional[i])
    ensures NewHere(s, kept, m)
  {
    hide HasOp, QueuedOp, HasKept;
    forall d | d in Deps(m)
      ensures QueuedOp(s, d) || HasKept(kept, d)
    {
      if d in m.additional {
        var i :| 0 <= i < |m.additional| && m.additional[i] == d;
      }
    }
  }

  // ---------------------------------------------------------------- creates

  /** What a create may wait for: an operation queued before, or one of the batch. */
  ghost predicate Waitable(e: Scan, kept: seq<Mutation>, d: Option<Uuid>) {
    d.Some? ==> (ValidOperationId(d.value) && QueuedOp(e.s, d.value)) || HasKept(kept, d.value)
  }

  lemma WaitableIs(e: Scan, gen: nat -> Uuid, k: nat, kept: seq<Mutation>, d: Option<Uuid>)
    requires FreshIds(e.s, gen) && KeptBelow(gen, kept, k) && Waitable(e, kept, d)
    ensures DepOk(d, gen(k)) && (d.Some? ==> QueuedOp(e.s, d.value) || HasKept(kept, d.value))
  {
    hide ValidOperationId, HasOp, QueuedOp, HasKept, FreshIds, KeptBelow;
    GenNew(e.s, gen, kept, k, k);
    if d.Some? && QueuedOp(e.s, d.value) {
      QueuedHas(e.s, d.value);
    }
    if d.Some? && HasKept(kept, d.value) {
      KeptValid(e.s, gen, kept, k, d.value);
    }
  }

  lemma CreateOpIs(o: Observed, op: Uuid, d: Option<Uuid>)
    ensures var m := CreateOp(o, op, d);
            m.op == op && m.kind == Create && m.obj == o.id && m.dependency == d && m.additional == []
  {
    hide NameOf, ParentOf;
  }

  lemma CreateAccepted(e: Scan, gen: nat -> Uuid, k: nat, ms: seq<Mutation>, kept: seq<Mutation>, done: set<Uuid>,
                       o: Observed, d: Option<Uuid>)
    requires StoreOk(e.s) && FreshIds(e.s, gen) && Batched(e, gen, k, ms, kept, done) && o.id !in done && ObservedOk(o)
    requires !Durable(e.s, o.id) && Waitable(e, kept, d)
    ensures var m := CreateOp(o, gen(k), d);
            Batched(e, gen, k + 1, ms + [m], kept + [m], done + {o.id}) && HasKept(kept + [m], gen(k))
  {
    hide *;
    var m := CreateOp(o, gen(k), d);
    BatchedIs(e, gen, k, ms, kept, done);
    WaitableIs(e, gen, k, kept, d);
    GenNew(e.s, gen, kept, k, k);
    CreateOpIs(o, gen(k), d);
    CreateValid(o, gen(k), d);
    NewHereIf(e.s, kept, m);
    ForeignTo(kept, done, o.id);
    KeepCreate(e.s, ms, kept, m);
    StaysTame(e, gen, k, ms, kept, done, m);
    BelowNext(gen, kept, k, k + 1, m, k);
    InNext(kept, done, m);
    HasNext(kept, m, gen(k));
    BatchedIs(e, gen, k + 1, ms + [m], kept + [m], done + {o.id});
  }

  // ---------------------------------------------------------------- moves and updates

  lemma ProjectedPositive(s: State, o: Uuid)
    requires BaselinesStorable(s) && Durable(s, o)
    ensures Projected(s, o) > 0
  {
    hide Count;
  }

  lemma ProjectedSmall(s: State, o: Uuid)
    requires ProjectionOk(s, o) && BaselinesStorable(s) && Durable(s, o)
    ensures Projected(s, o) <= MAX_INT64
  {
    hide Count;
  }

  lemma FollowsIf(s: State, m: Mutation)
    requires Durable(s, m.obj) && Projected(s, m.obj) == m.base && m.dependency == Last(s, m.obj)
    ensures FollowsProjection(s, m)
  {
    hide Durable, Projected, LastQueued;
  }

  lemma LastDepOk(e: Scan, gen: nat -> Uuid, n: nat, id: Uuid)
    requires RowsValid(e.s) && FreshIds(e.s, gen)
    ensures DepOk(Last(e.s, id), gen(n)) && (Last(e.s, id).Some? ==> QueuedOp(e.s, Last(e.s, id).value))
  {
    if Last(e.s, id).Some? {
      LastKnown(e.s, id);
      QueuedHas(e.s, Last(e.s, id).value);
    }
    hide ValidOperationId, HasOp, QueuedOp, LastQueued, RowsValid;
  }

  lemma AdditionalOk(e: Scan, gen: nat -> Uuid, n: nat, o: Observed)
    requires RowsValid(e.s) && FreshIds(e.s, gen)
    ensures DepsOk(Additional(e, o), gen(n))
    ensures forall i :: 0 <= i < |Additional(e, o)| ==> QueuedOp(e.s, Additional(e, o)[i])
  {
    LastDepOk(e, gen, n, o.parent);
    hide ValidOperationId, HasOp, QueuedOp, LastQueued, RowsValid, FreshIds;
  }

  lemma MoveOpIs(o: Observed, op: Uuid, base: nat, d: Option<Uuid>, ds: seq<Uuid>)
    ensures var m := MoveOp(o, op, base, d, ds);
            m.op == op && m.kind == Move && m.obj == o.id && m.otype == o.otype && m.base == base && m.dependency == d
                && m.additional == ds
  {
    hide NameOf, ParentOf;
  }

  /** What the capture knows of an object it follows. */
  ghost predicate Followable(e: Scan, o: Observed) {
    StoreOk(e.s) && ObservedOk(o) && Durable(e.s, o.id) && ProjectionOk(e.s, o.id)
  }

  lemma FollowableIs(e: Scan, o: Observed)
    requires Followable(e, o)
    ensures StoreOk(e.s) && ObservedOk(o) && Durable(e.s, o.id) && ProjectionOk(e.s, o.id)
  {
    hide StoreOk, ObservedOk, Durable, ProjectionOk;
  }

  lemma FollowableBase(e: Scan, o: Observed)
    requires Followable(e, o)
    ensures 0 < Projected(e.s, o.id) <= MAX_INT64 && RowsValid(e.s) && ObjectOk(e.s, o.id)
    ensures ObservedOk(o) && Durable(e.s, o.id) && ProjectionOk(e.s, o.id)
  {
    hide *;
    FollowableIs(e, o);
    StoreIs(e.s, o.id);
    ProjectedPositive(e.s, o.id);
    ProjectedSmall(e.s, o.id);
  }

  lemma KeptAfter(e: Scan, gen: nat -> Uuid, k: nat, n: nat, kept: seq<Mutation>, done: set<Uuid>, m: Mutation)
    requires KeptBelow(gen, kept, k) && KeptIn(kept, done) && m.op == gen(k) && k < n
    ensures KeptBelow(gen, Queue(e.s, kept, m), n) && KeptIn(Queue(e.s, kept, m), done + {m.obj})
  {
    hide *;
    QueueIs(e.s, kept, m);
    BelowNext(gen, kept, k, n, m, k);
    InNext(kept, done, m);
  }

  lemma MoveAccepted(e: Scan, gen: nat -> Uuid, k: nat, n: nat, ms: seq<Mutation>, kept: seq<Mutation>,
                     done: set<Uuid>, o: Observed)
    requires FreshIds(e.s, gen) && Batched(e, gen, k, ms, kept, done) && o.id !in done && Followable(e, o) && k < n
    ensures var m := MoveOp(o, gen(k), Projected(e.s, o.id), Last(e.s, o.id), Additional(e, o));
            Batched(e, gen, n, ms + [m], Queue(e.s, kept, m), done + {o.id}) && Foreign(kept, o.id)
  {
    hide *;
    var m := MoveOp(o, gen(k), Projected(e.s, o.id), Last(e.s, o.id), Additional(e, o));
    FollowableIs(e, o);
    FollowableBase(e, o);
    BatchedIs(e, gen, k, ms, kept, done);
    LastDepOk(e, gen, k, o.id);
    AdditionalOk(e, gen, k, o);
    GenNew(e.s, gen, kept, k, k);
    MoveOpIs(o, gen(k), Projected(e.s, o.id), Last(e.s, o.id), Additional(e, o));
    MoveValid(o, gen(k), Projected(e.s, o.id), Last(e.s, o.id), Additional(e, o));
    NewHereIf(e.s, kept, m);
    ForeignTo(kept, done, o.id);
    FollowsIf(e.s, m);
    KeepFollow(e.s, ms, kept, m);
    StaysTame(e, gen, k, ms, kept, done, m);
    KeptAfter(e, gen, k, n, kept, done, m);
    BatchedIs(e, gen, n, ms + [m], Queue(e.s, kept, m), done + {o.id});
  }

  lemma UpdateOpIs(o: Observed, op: Uuid, base: nat, d: Option<Uuid>)
    ensures var m := UpdateOp(o, op, base, d);
            m.op == op && m.kind == Update && m.obj == o.id && m.otype == Note && m.base == base && m.dependency == d
                && m.additional == []
    ensures d.Some? ==> d.value in Deps(UpdateOp(o, op, base, d))
  {
  }

  lemma UpdateAccepted(e: Scan, gen: nat -> Uuid, k: nat, ms: seq<Mutation>, kept: seq<Mutation>, done: set<Uuid>,
                       o: Observed)
    requires FreshIds(e.s, gen) && Batched(e, gen, k, ms, kept, done) && o.id !in done && Followable(e, o)
             && o.otype == Note
    ensures var m := UpdateOp(o, gen(k), Projected(e.s, o.id), Last(e.s, o.id));
            Batched(e, gen, k + 1, ms + [m], kept + [m], done + {o.id})
  {
    hide *;
    var m := UpdateOp(o, gen(k), Projected(e.s, o.id), Last(e.s, o.id));
    FollowableIs(e, o);
    FollowableBase(e, o);
    BatchedIs(e, gen, k, ms, kept, done);
    LastDepOk(e, gen, k, o.id);
    GenNew(e.s, gen, kept, k, k);
    UpdateOpIs(o, gen(k), Projected(e.s, o.id), Last(e.s, o.id));
    UpdateValid(o, gen(k), Projected(e.s, o.id), Last(e.s, o.id));
    NewHereIf(e.s, kept, m);
    ForeignTo(kept, done, o.id);
    FollowsIf(e.s, m);
    KeepFollow(e.s, ms, kept, m);
    StaysTame(e, gen, k, ms, kept, done, m);
    QueueIs(e.s, kept, m);
    BelowNext(gen, kept, k, k + 1, m, k);
    InNext(kept, done, m);
    BatchedIs(e, gen, k + 1, ms + [m], kept + [m], done + {o.id});
  }

  /** The update behind the same note's move. */
  lemma SecondAccepted(e: Scan, gen: nat -> Uuid, k: nat, ms: seq<Mutation>, kept: seq<Mutation>, done: set<Uuid>,
                       o: Observed)
    requires FreshIds(e.s, gen) && Batched(e, gen, k, ms, kept, done) && o.id !in done && Followable(e, o)
             && o.otype == Note
    requires Projected(e.s, o.id) < MAX_INT64
    ensures var a := MoveOp(o, gen(k), Projected(e.s, o.id), Last(e.s, o.id), Additional(e, o));
            var b := UpdateOp(o, gen(k + 1), Projected(e.s, o.id) + 1, Some(gen(k)));
            Batched(e, gen, k + 2, ms + [a] + [b], kept + [a] + [b], done + {o.id})
  {
    hide *;
    var a := MoveOp(o, gen(k), Projected(e.s, o.id), Last(e.s, o.id), Additional(e, o));
    var b := UpdateOp(o, gen(k + 1), Projected(e.s, o.id) + 1, Some(gen(k)));
    FollowableBase(e, o);
    MoveAccepted(e, gen, k, k + 1, ms, kept, done, o);
    MoveOpIs(o, gen(k), Projected(e.s, o.id), Last(e.s, o.id), Additional(e, o));
    QueueIs(e.s, kept, a);
    BatchedIs(e, gen, k + 1, ms + [a], kept + [a], done + {o.id});
    BatchedIs(e, gen, k, ms, kept, done);
    GenNew(e.s, gen, kept + [a], k + 1, k + 1);
    GenNew(e.s, gen, kept, k, k);
    HasNext(kept, a, gen(k));
    FreshPair(e.s, gen, k, k + 1);
    UpdateOpIs(o, gen(k + 1), Projected(e.s, o.id) + 1, Some(gen(k)));
    UpdateValid(o, gen(k + 1), Projected(e.s, o.id) + 1, Some(gen(k)));
    NewHereIf(e.s, kept + [a], b);
    KeepSecond(e.s, ms + [a], kept, a, b);
    FollowableIs(e, o);
    StaysTame(e, gen, k + 1, ms + [a], kept + [a], done + {o.id}, b);
    BelowNext(gen, kept + [a], k + 1, k + 2, b, k + 1);
    InNext(kept + [a], done + {o.id}, b);
    assert done + {o.id} + {o.id} == done + {o.id};
    BatchedIs(e, gen, k + 2, ms + [a] + [b], kept + [a] + [b], done + {o.id});
  }

  lemma FreshPair(s: State, gen: nat -> Uuid, j: nat, k: nat)
    requires FreshIds(s, gen) && j != k
    ensures DepOk(Some(gen(j)), gen(k))
  {
    hide ValidOperationId, HasOp;
    assert ValidOperationId(gen(j));
    assert gen(j) == gen(k) ==> j == k;
  }

  lemma SecondRefused(e: Scan, gen: nat -> Uuid, k: nat, ms: seq<Mutation>, o: Observed)
    requires Projected(e.s, o.id) >= MAX_INT64
    ensures EnqueueAll(Running(e.s, {}), ms + [UpdateOp(o, gen(k + 1), Projected(e.s, o.id) + 1, Some(gen(k)))])
            == Failed
  {
    hide EnqueueAll, Projected;
    RefusedBase(e.s, ms, UpdateOp(o, gen(k + 1), Projected(e.s, o.id) + 1, Some(gen(k))));
  }

  lemma OpsAre(e: Scan, gen: nat -> Uuid, k: nat, o: Observed)
    ensures Moves(e, gen, k, o)
            == if Moved(e, o) then [MoveOp(o, gen(k), Projected(e.s, o.id), Last(e.s, o.id), Additional(e, o))] else []
    ensures !Changed(e, o) || o.id in e.oversize ==> Updates(e, gen, k, o) == []
    ensures Changed(e, o) && o.id !in e.oversize && Moved(e, o)
            ==> Updates(e, gen, k, o) == [UpdateOp(o, gen(k + 1), Projected(e.s, o.id) + 1, Some(gen(k)))]
    ensures Changed(e, o) && o.id !in e.oversize && !Moved(e, o)
            ==> Updates(e, gen, k, o) == [UpdateOp(o, gen(k), Projected(e.s, o.id), Last(e.s, o.id))]
    ensures Drawn(e, o) == (if Moved(e, o) then 1 else 0) + (if Changed(e, o) then 1 else 0)
    ensures Changed(e, o) ==> o.otype == Note
    ensures HasRoom(e, o) <==> (Moved(e, o) && Changed(e, o) && o.id !in e.oversize ==>
                                  Projected(e.s, o.id) < MAX_INT64)
  {
    hide Moved, Projected, LastQueued, Additional;
  }

  lemma AlsoDone(e: Scan, gen: nat -> Uuid, k: nat, n: nat, ms: seq<Mutation>, kept: seq<Mutation>, done: set<Uuid>,
                 o: Uuid)
    requires Batched(e, gen, k, ms, kept, done) && k <= n
    ensures Batched(e, gen, n, ms, kept, done + {o})
  {
    hide Clean, KeptBelow, Tame;
    BelowLater(gen, kept, k, n);
    TameLater(e.s, ms, done, o);
  }

  lemma Joined3(ms: seq<Mutation>, a: seq<Mutation>, b: seq<Mutation>)
    ensures a == [] && b == [] ==> ms + a + b == ms
    ensures |a| == 1 && b == [] ==> ms + a + b == ms + [a[0]]
    ensures a == [] && |b| == 1 ==> ms + a + b == ms + [b[0]]
    ensures |a| == 1 && |b| == 1 ==> ms + a + b == ms + [a[0]] + [b[0]]
  {
  }

  /** What is captured of a followed object is accepted, unless it needs a revision past the largest. */
  lemma ChangeAccepted(e: Scan, gen: nat -> Uuid, k: nat, ms: seq<Mutation>, kept: seq<Mutation>, done: set<Uuid>,
                       o: Observed)
    returns (next: seq<Mutation>)
    requires FreshIds(e.s, gen) && Batched(e, gen, k, ms, kept, done) && o.id !in done && Followable(e, o)
             && HasRoom(e, o)
    ensures Batched(e, gen, k + Drawn(e, o), ms + Moves(e, gen, k, o) + Updates(e, gen, k, o), next, done + {o.id})
    ensures kept <= next && forall op :: HasKept(kept, op) ==> HasKept(next, op)
  {
    hide *;
    OpsAre(e, gen, k, o);
    Joined3(ms, Moves(e, gen, k, o), Updates(e, gen, k, o));
    if Moved(e, o) {
      var m := MoveOp(o, gen(k), Projected(e.s, o.id), Last(e.s, o.id), Additional(e, o));
      if Changed(e, o) && o.id !in e.oversize {
        var b := UpdateOp(o, gen(k + 1), Projected(e.s, o.id) + 1, Some(gen(k)));
        next := kept + [m] + [b];
        SecondAccepted(e, gen, k, ms, kept, done, o);
        KeepsHaving(kept, m);
        KeepsHaving(kept + [m], b);
      } else {
        next := Queue(e.s, kept, m);
        MoveAccepted(e, gen, k, k + Drawn(e, o), ms, kept, done, o);
        QueueIs(e.s, kept, m);
        KeepsHaving(kept, m);
      }
    } else if Changed(e, o) && o.id !in e.oversize {
      var m := UpdateOp(o, gen(k), Projected(e.s, o.id), Last(e.s, o.id));
      next := kept + [m];
      UpdateAccepted(e, gen, k, ms, kept, done, o);
      KeepsHaving(kept, m);
    } else {
      next := kept;
      AlsoDone(e, gen, k, k + Drawn(e, o), ms, kept, done, o.id);
    }
  }

  lemma KeepsHaving(kept: seq<Mutation>, m: Mutation)
    ensures forall op :: HasKept(kept, op) ==> HasKept(kept + [m], op)
  {
    forall op | HasKept(kept, op)
      ensures HasKept(kept + [m], op)
    {
      HasNext(kept, m, op);
    }
  }

  lemma ChangeRefused(e: Scan, gen: nat -> Uuid, k: nat, ms: seq<Mutation>, o: Observed)
    requires !HasRoom(e, o)
    ensures EnqueueAll(Running(e.s, {}), ms + Moves(e, gen, k, o) + Updates(e, gen, k, o)) == Failed
  {
    hide *;
    OpsAre(e, gen, k, o);
    Joined3(ms, Moves(e, gen, k, o), Updates(e, gen, k, o));
    SecondRefused(e, gen, k, ms + Moves(e, gen, k, o), o);
  }

  lemma {:induction false} RefusedForGood(s: State, ms: seq<Mutation>, more: seq<Mutation>)
    requires EnqueueAll(Running(s, {}), ms) == Failed
    ensures EnqueueAll(Running(s, {}), ms + more) == Failed
  {
    hide EnqueueAll;
    if more == [] {
      assert ms + more == ms;
    } else {
      var init := more[..|more| - 1];
      RefusedForGood(s, ms, init);
      StaysFailed(s, ms + init, more[|more| - 1]);
      assert ms + init + [more[|more| - 1]] == ms + more;
    }
  }

  // ---------------------------------------------------------------- deletes

  /** A delete also waits for the one before it, so that they are sent in order. */
  function AfterDelete(e: Scan, o: Observed, last: Option<Uuid>): seq<Uuid> {
    if last.Some? && Last(e.s, o.id) != last then [last.value] else []
  }

  lemma DeleteOpIs(o: Observed, op: Uuid, base: nat, d: Option<Uuid>, ds: seq<Uuid>)
    ensures var m := DeleteOp(o, op, base, d, ds);
            m.op == op && m.kind == Delete && m.obj == o.id && m.base == base && m.dependency == d && m.additional == ds
  {
  }

  lemma AfterDeleteOk(e: Scan, gen: nat -> Uuid, k: nat, kept: seq<Mutation>, o: Observed, last: Option<Uuid>)
    requires FreshIds(e.s, gen) && KeptBelow(gen, kept, k) && (last.Some? ==> HasKept(kept, last.value))
    ensures DepsOk(AfterDelete(e, o, last), gen(k))
    ensures forall i :: 0 <= i < |AfterDelete(e, o, last)| ==> HasKept(kept, AfterDelete(e, o, last)[i])
  {
    GenNew(e.s, gen, kept, k, k);
    if last.Some? {
      KeptValid(e.s, gen, kept, k, last.value);
    }
    hide ValidOperationId, HasOp, LastQueued, FreshIds, KeptBelow, HasKept;
  }

  lemma DeleteAccepted(e: Scan, gen: nat -> Uuid, k: nat, ms: seq<Mutation>, kept: seq<Mutation>, done: set<Uuid>,
                       o: Observed, last: Option<Uuid>)
    requires FreshIds(e.s, gen) && Batched(e, gen, k, ms, kept, done) && o.id !in done && Followable(e, o)
    requires last.Some? ==> HasKept(kept, last.value)
    ensures var m := DeleteOp(o, gen(k), Projected(e.s, o.id), Last(e.s, o.id), AfterDelete(e, o, last));
            Batched(e, gen, k + 1, ms + [m], kept + [m], done + {o.id}) && HasKept(kept + [m], gen(k))
  {
    hide *;
    var m := DeleteOp(o, gen(k), Projected(e.s, o.id), Last(e.s, o.id), AfterDelete(e, o, last));
    FollowableIs(e, o);
    FollowableBase(e, o);
    BatchedIs(e, gen, k, ms, kept, done);
    LastDepOk(e, gen, k, o.id);
    AfterDeleteOk(e, gen, k, kept, o, last);
    GenNew(e.s, gen, kept, k, k);
    DeleteOpIs(o, gen(k), Projected(e.s, o.id), Last(e.s, o.id), AfterDelete(e, o, last));
    DeleteValid(o, gen(k), Projected(e.s, o.id), Last(e.s, o.id), AfterDelete(e, o, last));
    NewHereIf(e.s, kept, m);
    ForeignTo(kept, done, o.id);
    FollowsIf(e.s, m);
    KeepFollow(e.s, ms, kept, m);
    StaysTame(e, gen, k, ms, kept, done, m);
    QueueIs(e.s, kept, m);
    HasNext(kept, m, gen(k));
    BelowNext(gen, kept, k, k + 1, m, k);
    InNext(kept, done, m);
    BatchedIs(e, gen, k + 1, ms + [m], kept + [m], done + {o.id});
  }
}
