/** Retiring pending operations from any outbox and queueing creates in their place: when that is accepted, and whom it
    strands. */
module OutboxReplace {
  import opened Ids
  import opened Outbox
  import opened OutboxChain
  import opened OutboxBatch
  import opened OutboxProgress

  /** Whatever the outbox holds of these operations is pending. */
  ghost predicate PendingOps(s: State, gone: set<Uuid>) {
    forall i :: 0 <= i < |s.rows| && s.rows[i].m.op in gone ==> s.rows[i].status == Pending
  }

  predicate Names(ms: seq<Mutation>, o: Uuid) {
    exists k :: 0 <= k < |ms| && ms[k].obj == o
  }

  predicate HasOpIn(ms: seq<Mutation>, op: Uuid) {
    exists k :: 0 <= k < |ms| && ms[k].op == op
  }

  /** Creates of different objects by different operations, each waiting for earlier ones only. */
  predicate Creates(ms: seq<Mutation>) {
    && (forall k :: 0 <= k < |ms| ==> ms[k].kind == Create)
    && (forall j, k :: 0 <= j < k < |ms| ==> ms[j].obj != ms[k].obj && ms[j].op != ms[k].op)
    && (forall k :: 0 <= k < |ms| ==> WaitsWithin(ms, k))
  }

  /** The k-th operation waits for earlier ones only. */
  predicate WaitsWithin(ms: seq<Mutation>, k: nat)
    requires k < |ms|
  {
    forall d :: d in Deps(ms[k]) ==> HasOpIn(ms[..k], d)
  }

  /** The create fits the outbox as it was before the batch. */
  predicate CanCreate(s: State, m: Mutation) {
    ValidMutation(m) && CreateAllowed(s, m.obj) && !HasOp(s, |s.rows|, m.op) && ProjectionOk(s, m.obj)
  }

  predicate CanCreateAll(s: State, ms: seq<Mutation>) {
    forall k :: 0 <= k < |ms| ==> CanCreate(s, ms[k])
  }

  // ---------------------------------------------------------------- the batch

  /** Row j after the creates: untouched if nothing of its object is created, and no longer queued otherwise. */
  ghost predicate RowAfter(s: State, ms: seq<Mutation>, t: State, j: nat)
    requires j < |s.rows| <= |t.rows|
  {
    && t.rows[j].m == s.rows[j].m
    && (if Names(ms, s.rows[j].m.obj)
        then !Queued(t.rows[j].status)
            && (t.rows[j] == s.rows[j] || (t.rows[j].status == Superseded && !Referenced(s, j)))
        else t.rows[j] == s.rows[j])
  }

  ghost predicate Replaced(s: State, ms: seq<Mutation>, b: Batch) {
    && b.Running? && WellFormed(b.s) && |b.s.rows| == |s.rows| + |ms| && b.s.baselines == s.baselines
    && b.s.met == s.met
    && (forall o :: o in b.coalesced <==> Names(ms, o))
    && (forall j :: 0 <= j < |s.rows| ==> RowAfter(s, ms, b.s, j))
    && (forall k :: 0 <= k < |ms| ==> b.s.rows[|s.rows| + k] == Row(ms[k], Pending))
  }

  lemma NothingReplaced(s: State)
    requires WellFormed(s)
    ensures Replaced(s, [], Running(s, {}))
  {
  }

  lemma NewRows(s: State, ms: seq<Mutation>, b: Batch)
    requires Replaced(s, ms, b)
    ensures forall j :: |s.rows| <= j < |b.s.rows| ==> b.s.rows[j] == Row(ms[j - |s.rows|], Pending)
  {
    hide WellFormed, RowAfter, Names;
    forall j | |s.rows| <= j < |b.s.rows|
      ensures b.s.rows[j] == Row(ms[j - |s.rows|], Pending)
    {
      var k := j - |s.rows|;
      assert b.s.rows[|s.rows| + k] == Row(ms[k], Pending);
    }
  }

  lemma OldRows(s: State, ms: seq<Mutation>, b: Batch)
    requires Replaced(s, ms, b)
    ensures forall j :: 0 <= j < |s.rows| ==> b.s.rows[j].m == s.rows[j].m
  {
    hide WellFormed, Referenced, Names;
    forall j | 0 <= j < |s.rows|
      ensures b.s.rows[j].m == s.rows[j].m
    {
      assert RowAfter(s, ms, b.s, j);
    }
  }

  /** An object the batch has not come to has the queue it had, and the same of it is referenced. */
  lemma QueueSame(s: State, ms: seq<Mutation>, b: Batch, o: Uuid)
    requires Replaced(s, ms, b) && !Names(ms, o)
    ensures b.s.baselines == s.baselines && |s.rows| <= |b.s.rows|
    ensures forall j: nat :: QueuedOf(b.s, o, j) == QueuedOf(s, o, j)
    ensures forall j :: 0 <= j < |b.s.rows| && b.s.rows[j].m.obj == o ==> j < |s.rows| && b.s.rows[j] == s.rows[j]
  {
    hide WellFormed, Referenced;
    NewRows(s, ms, b);
    forall j | 0 <= j < |s.rows|
      ensures b.s.rows[j].m == s.rows[j].m && (s.rows[j].m.obj == o ==> b.s.rows[j] == s.rows[j])
    {
      assert RowAfter(s, ms, b.s, j);
    }
  }

  lemma ReferencedSame(s: State, ms: seq<Mutation>, b: Batch, j: nat)
    requires Replaced(s, ms, b) && Creates(ms) && j < |s.rows|
    ensures Referenced(b.s, j) == Referenced(s, j)
  {
    OldRows(s, ms, b);
    NewRows(s, ms, b);
    forall k | 0 <= k < |ms|
      ensures b.s.rows[j].m.op !in Deps(ms[k])
    {
      NewDependsOnNew(s, ms, b, j, k);
    }
    hide Deps, Replaced, Creates;
    forall i: nat
      ensures Dep(b.s, i, j) == Dep(s, i, j)
    {
    }
  }

  lemma NewDependsOnNew(s: State, ms: seq<Mutation>, b: Batch, j: nat, k: nat)
    requires Replaced(s, ms, b) && Creates(ms) && j < |s.rows| && k < |ms|
    ensures b.s.rows[j].m.op !in Deps(ms[k])
  {
    NewRows(s, ms, b);
    assert WaitsWithin(ms, k);
    hide Deps, RowAfter;
    forall x | 0 <= x < |ms|
      ensures ms[x].op != b.s.rows[j].m.op
    {
      assert b.s.rows[|s.rows| + x] == Row(ms[x], Pending);
    }
  }

  lemma {:induction false} CountOlder(s: State, t: State, o: Uuid, n: nat)
    requires |s.rows| <= n && forall j: nat :: QueuedOf(t, o, j) == QueuedOf(s, o, j)
    ensures Count(t, o, n) == Count(s, o, |s.rows|)
  {
    if n == |s.rows| {
      CountSame(s, t, o, n);
    } else {
      CountOlder(s, t, o, n - 1);
    }
  }

  lemma AllowedSame(s: State, ms: seq<Mutation>, b: Batch, o: Uuid)
    requires Replaced(s, ms, b) && Creates(ms) && !Names(ms, o)
    ensures CreateAllowed(b.s, o) == CreateAllowed(s, o)
  {
    QueueSame(s, ms, b, o);
    OldRows(s, ms, b);
    forall j | 0 <= j < |s.rows| && s.rows[j].m.obj == o
      ensures b.s.rows[j] == s.rows[j] && Referenced(b.s, j) == Referenced(s, j)
    {
      assert b.s.rows[j].m.obj == o;
      ReferencedSame(s, ms, b, j);
    }
    hide Replaced, Creates, Referenced, QueuedOf;
  }

  /** Whether the next create is accepted does not depend on the creates before it. */
  lemma NextAccepted(s: State, ms: seq<Mutation>, b: Batch, m: Mutation)
    requires Replaced(s, ms, b) && Creates(ms) && Creates(ms + [m]) && !Names(ms, m.obj)
    ensures ValidMutation(m) && Admitted(b.s, m) <==> CanCreate(s, m)
  {
    assert (ms + [m])[|ms|] == m;
    MadeOfCreates(ms + [m], |ms|);
    QueueSame(s, ms, b, m.obj);
    CountOlder(s, b.s, m.obj, |b.s.rows|);
    NextInsertable(s, ms, b, m);
    AllowedSame(s, ms, b, m.obj);
    hide Replaced, Creates, ValidMutation, Insertable, CreateAllowed, Count;
  }

  lemma MadeOfCreates(ms: seq<Mutation>, k: nat)
    requires Creates(ms) && k < |ms|
    ensures ms[k].kind == Create
  {
  }

  lemma NextInsertable(s: State, ms: seq<Mutation>, b: Batch, m: Mutation)
    requires Replaced(s, ms, b) && Creates(ms + [m])
    ensures Insertable(b.s, m) <==> !HasOp(s, |s.rows|, m.op)
  {
    hide *;
    ReplacedShape(s, ms, b);
    NewOpsThere(s, ms, b, m);
    OpThere(s, ms, b, m);
    InsertableIs(b.s, m);
  }

  lemma InsertableIs(s: State, m: Mutation)
    ensures Insertable(s, m) <==> !HasOp(s, |s.rows|, m.op) && forall d :: d in Deps(m) ==> HasOp(s, |s.rows|, d)
  {
    hide HasOp, Deps;
  }

  lemma NewOpsThere(s: State, ms: seq<Mutation>, b: Batch, m: Mutation)
    requires Replaced(s, ms, b) && Creates(ms + [m])
    ensures forall d :: d in Deps(m) ==> HasOp(b.s, |b.s.rows|, d)
  {
    var all := ms + [m];
    assert all[|ms|] == m && all[..|ms|] == ms;
    assert WaitsWithin(all, |ms|);
    NewRows(s, ms, b);
    hide RowAfter, WellFormed, Deps;
    forall d | d in Deps(m)
      ensures HasOp(b.s, |b.s.rows|, d)
    {
      var k :| 0 <= k < |ms| && ms[k].op == d;
      assert b.s.rows[|s.rows| + k].m.op == d;
    }
  }

  lemma OpThere(s: State, ms: seq<Mutation>, b: Batch, m: Mutation)
    requires Replaced(s, ms, b) && Creates(ms + [m])
    ensures HasOp(b.s, |b.s.rows|, m.op) <==> HasOp(s, |s.rows|, m.op)
  {
    NewOp(ms, m);
    ReplacedShape(s, ms, b);
    OldRows(s, ms, b);
    NewRows(s, ms, b);
    hide Replaced, Creates, WellFormed;
    if HasOp(s, |s.rows|, m.op) {
      var j :| 0 <= j < |s.rows| && s.rows[j].m.op == m.op;
      assert b.s.rows[j].m.op == m.op;
    }
  }

  lemma NewOp(ms: seq<Mutation>, m: Mutation)
    requires Creates(ms + [m])
    ensures forall k :: 0 <= k < |ms| ==> ms[k].op != m.op
  {
    var all := ms + [m];
    assert all[|ms|] == m && forall k :: 0 <= k < |ms| ==> all[k] == ms[k];
    hide WaitsWithin;
  }

  lemma NewObject(ms: seq<Mutation>, m: Mutation)
    requires Creates(ms + [m])
    ensures Creates(ms) && !Names(ms, m.obj) && m.kind == Create
  {
    var all := ms + [m];
    assert all[|ms|] == m && forall k :: 0 <= k < |ms| ==> all[k] == ms[k] && all[..k] == ms[..k];
    hide Deps;
    forall k | 0 <= k < |ms|
      ensures WaitsWithin(ms, k)
    {
      assert WaitsWithin(all, k);
    }
  }

  lemma NamesNext(ms: seq<Mutation>, m: Mutation, o: Uuid)
    ensures Names(ms + [m], o) <==> Names(ms, o) || m.obj == o
  {
    var all := ms + [m];
    assert all[|ms|] == m && forall k :: 0 <= k < |ms| ==> all[k] == ms[k];
  }

  /** The next create is queued, and takes over what was queued of its object. */
  lemma ReplaceOne(s: State, ms: seq<Mutation>, b: Batch, m: Mutation)
    requires Replaced(s, ms, b) && Creates(ms) && Creates(ms + [m]) && !Names(ms, m.obj) && CanCreate(s, m)
    requires ValidMutation(m) && Admitted(b.s, m) && m.kind == Create
    ensures Replaced(s, ms + [m], EnqueueOne(b, m))
  {
    var c := EnqueueOne(b, m);
    hide WellFormed, RowAfter, Names, EnqueueOne, Deps, Creates, CanCreate, Admitted, ValidMutation;
    StepShape(s, ms, b, m);
    forall o
      ensures o in c.coalesced <==> Names(ms + [m], o)
    {
      NamesNext(ms, m, o);
    }
    forall j | 0 <= j < |s.rows|
      ensures RowAfter(s, ms + [m], c.s, j)
    {
      RowNext(s, ms, b, m, j);
    }
  }

  lemma StepShape(s: State, ms: seq<Mutation>, b: Batch, m: Mutation)
    requires Replaced(s, ms, b) && ValidMutation(m) && Admitted(b.s, m) && m.kind == Create
    ensures var c := EnqueueOne(b, m);
            && c.Running? && WellFormed(c.s) && |c.s.rows| == |s.rows| + |ms| + 1 && c.s.baselines == s.baselines
            && c.s.met == s.met
            && c.coalesced == b.coalesced + {m.obj} && c.s.rows[|s.rows| + |ms|] == Row(m, Pending)
            && forall k :: 0 <= k < |ms| ==> c.s.rows[|s.rows| + k] == Row(ms[k], Pending)
  {
    EnqueueIs(b, m);
    StepRows(b, m);
    StepIsAppend(b, m);
    KeepsNewRows(s, ms, b, m);
    hide WellFormed, RowAfter, Names, EnqueueOne, Deps, Admitted, ValidMutation;
  }

  lemma KeepsNewRows(s: State, ms: seq<Mutation>, b: Batch, m: Mutation)
    requires Replaced(s, ms, b) && ValidMutation(m) && Admitted(b.s, m) && m.kind == Create
    ensures EnqueueOne(b, m).Running? && |EnqueueOne(b, m).s.rows| == |b.s.rows| + 1
    ensures forall k :: 0 <= k < |ms| ==> EnqueueOne(b, m).s.rows[|s.rows| + k] == Row(ms[k], Pending)
  {
    hide *;
    ReplacedShape(s, ms, b);
    EnqueueIs(b, m);
    NotRedundant(b.s, m);
    StepRows(b, m);
    NewRows(s, ms, b);
    forall k | 0 <= k < |ms|
      ensures EnqueueOne(b, m).s.rows[|s.rows| + k] == Row(ms[k], Pending)
    {
      NamedAlready(ms, k);
      assert b.s.rows[|s.rows| + k] == Row(ms[k], Pending);
    }
  }

  lemma NotRedundant(s: State, m: Mutation)
    requires m.kind == Create
    ensures !Redundant(s, m)
  {
  }

  lemma ReplacedShape(s: State, ms: seq<Mutation>, b: Batch)
    requires Replaced(s, ms, b)
    ensures b.Running? && WellFormed(b.s) && |b.s.rows| == |s.rows| + |ms|
            && forall o :: o in b.coalesced <==> Names(ms, o)
  {
    hide WellFormed, RowAfter, Names;
  }

  lemma NamedAlready(ms: seq<Mutation>, k: nat)
    requires k < |ms|
    ensures Names(ms, ms[k].obj)
  {
  }

  lemma RowNext(s: State, ms: seq<Mutation>, b: Batch, m: Mutation, j: nat)
    requires Replaced(s, ms, b) && Creates(ms) && Creates(ms + [m]) && !Names(ms, m.obj) && CanCreate(s, m)
    requires ValidMutation(m) && Admitted(b.s, m) && m.kind == Create && j < |s.rows|
    ensures EnqueueOne(b, m).Running? && |s.rows| <= |EnqueueOne(b, m).s.rows|
            && RowAfter(s, ms + [m], EnqueueOne(b, m).s, j)
  {
    var c := EnqueueOne(b, m);
    assert RowAfter(s, ms, b.s, j);
    StepRows(b, m);
    NamesNext(ms, m, s.rows[j].m.obj);
    if s.rows[j].m.obj == m.obj {
      ReferencedSame(s, ms, b, j);
      AlreadyNew(s, ms, b, m, j);
      OwnRow(b, m, j);
    }
    hide Replaced, Creates, WellFormed, Referenced, EnqueueOne, CanCreate, Admitted, ValidMutation, Names;
  }

  lemma AlreadyNew(s: State, ms: seq<Mutation>, b: Batch, m: Mutation, j: nat)
    requires Replaced(s, ms, b) && Creates(ms + [m]) && j < |s.rows|
    ensures b.s.rows[j].m.op !in Deps(m)
  {
    var all := ms + [m];
    assert all[|ms|] == m && all[..|ms|] == ms;
    NewRows(s, ms, b);
    assert WaitsWithin(all, |ms|);
    hide Deps, RowAfter;
    forall x | 0 <= x < |ms|
      ensures ms[x].op != b.s.rows[j].m.op
    {
      assert b.s.rows[|s.rows| + x] == Row(ms[x], Pending);
    }
  }

  /** A row of the created object: superseded if it was pending, and it is not queued any more. */
  lemma OwnRow(b: Batch, m: Mutation, j: nat)
    requires b.Running? && WellFormed(b.s) && m.kind == Create && ValidMutation(m) && Admitted(b.s, m)
             && m.obj !in b.coalesced
    requires j < |b.s.rows| && b.s.rows[j].m.obj == m.obj && b.s.rows[j].m.op !in Deps(m)
    ensures EnqueueOne(b, m).Running? && j < |EnqueueOne(b, m).s.rows|
    ensures var r := EnqueueOne(b, m).s.rows[j];
            && r.m == b.s.rows[j].m && !Queued(r.status)
            && (r == b.s.rows[j] || (r.status == Superseded && !Referenced(b.s, j)))
  {
    hide ValidMutation, WellFormed, Deps, Referenced, Insertable;
  }

  /** The batch is accepted exactly when each of its creates fits the outbox as it was. */
  lemma {:induction false} ReplaceAll(s: State, ms: seq<Mutation>)
    requires WellFormed(s) && Creates(ms)
    ensures EnqueueAll(Running(s, {}), ms).Running? <==> CanCreateAll(s, ms)
    ensures CanCreateAll(s, ms) ==> Replaced(s, ms, EnqueueAll(Running(s, {}), ms))
  {
    if ms == [] {
      NothingReplaced(s);
    } else {
      var init, m := ms[..|ms| - 1], ms[|ms| - 1];
      assert init + [m] == ms;
      CanCreateNext(s, init, m);
      BatchNext(s, ms);
      hide *;
      NewObject(init, m);
      ReplaceAll(s, init);
      var b := EnqueueAll(Running(s, {}), init);
      if CanCreateAll(s, init) {
        NextAccepted(s, init, b, m);
        EnqueueIs(b, m);
        if CanCreate(s, m) {
          CanCreateValid(s, m);
          ReplaceOne(s, init, b, m);
        }
      }
    }
  }

  lemma BatchNext(s: State, ms: seq<Mutation>)
    requires ms != []
    ensures EnqueueAll(Running(s, {}), ms) == EnqueueOne(EnqueueAll(Running(s, {}), ms[..|ms| - 1]), ms[|ms| - 1])
    ensures EnqueueAll(Running(s, {}), ms).Running? ==> EnqueueAll(Running(s, {}), ms[..|ms| - 1]).Running?
  {
    hide EnqueueAll;
    assert EnqueueAll(Running(s, {}), ms) == EnqueueOne(EnqueueAll(Running(s, {}), ms[..|ms| - 1]), ms[|ms| - 1]) by {
      EnqueueUnfolds(s, ms);
    }
  }

  lemma EnqueueUnfolds(s: State, ms: seq<Mutation>)
    requires ms != []
    ensures EnqueueAll(Running(s, {}), ms) == EnqueueOne(EnqueueAll(Running(s, {}), ms[..|ms| - 1]), ms[|ms| - 1])
  {
  }

  lemma EnqueueIs(b: Batch, m: Mutation)
    requires b.Running? && m.kind == Create
    ensures EnqueueOne(b, m).Running? <==> ValidMutation(m) && Admitted(b.s, m)
  {
    hide ValidMutation, Admitted;
  }

  lemma CanCreateValid(s: State, m: Mutation)
    requires CanCreate(s, m)
    ensures ValidMutation(m)
  {
    hide ValidMutation;
  }

  lemma CanCreateNext(s: State, ms: seq<Mutation>, m: Mutation)
    ensures CanCreateAll(s, ms + [m]) <==> CanCreateAll(s, ms) && CanCreate(s, m)
  {
    var all := ms + [m];
    assert all[|ms|] == m && forall k :: 0 <= k < |ms| ==> all[k] == ms[k];
    hide CanCreate;
    if CanCreateAll(s, all) {
      assert forall k :: 0 <= k < |ms| ==> CanCreate(s, all[k]);
    }
  }

  // ---------------------------------------------------------------- who is left behind

  /** A queued operation of another object waits for a retired one. */
  predicate LeavesBehind(s: State, gone: set<Uuid>, ms: seq<Mutation>) {
    exists i :: 0 <= i < |s.rows| && LeftBehind(s, gone, ms, i)
  }

  predicate LeftBehind(s: State, gone: set<Uuid>, ms: seq<Mutation>, i: nat) {
    && i < |s.rows| && Queued(s.rows[i].status) && s.rows[i].m.op !in gone && !Names(ms, s.rows[i].m.obj)
    && exists d :: d in gone && d in Deps(s.rows[i].m)
  }

  lemma MarkedPending(s: State, gone: set<Uuid>)
    requires WellFormed(s) && PendingOps(s, gone)
    ensures WellFormed(Marked(s, gone)) && SameOps(s, Marked(s, gone))
    ensures forall i :: 0 <= i < |s.rows| ==>
              Marked(s, gone).rows[i] == (if s.rows[i].m.op in gone then Row(s.rows[i].m, Superseded) else s.rows[i])
  {
    var t := Marked(s, gone);
    assert forall i :: 0 <= i < |s.rows| ==>
             t.rows[i] == (if s.rows[i].m.op in gone then Row(s.rows[i].m, Superseded) else s.rows[i]);
    hide Marked, WellFormed;
    OpsKept(s, t);
  }

  /** Whatever is neither retired nor of a created object stays as it was. */
  lemma Untouched(s: State, gone: set<Uuid>, ms: seq<Mutation>, i: nat)
    requires WellFormed(s) && PendingOps(s, gone) && Creates(ms) && CanCreateAll(Marked(s, gone), ms)
    requires i < |s.rows| && s.rows[i].m.op !in gone && !Names(ms, s.rows[i].m.obj)
    ensures var b := EnqueueAll(Running(Marked(s, gone), {}), ms);
            b.Running? && i < |b.s.rows| && b.s.rows[i] == s.rows[i]
  {
    var t := Marked(s, gone);
    MarkedPending(s, gone);
    hide EnqueueAll, WellFormed, PendingOps, Creates, CanCreateAll, Names;
    ReplaceAll(t, ms);
    assert RowAfter(t, ms, EnqueueAll(Running(t, {}), ms).s, i);
  }

  lemma QueuedAfter(s: State, ms: seq<Mutation>, b: Batch, i: nat)
    requires Replaced(s, ms, b) && i < |s.rows|
    ensures i < |b.s.rows| && b.s.rows[i].m == s.rows[i].m
    ensures Queued(b.s.rows[i].status) ==> b.s.rows[i] == s.rows[i] && !Names(ms, s.rows[i].m.obj)
    ensures !Names(ms, s.rows[i].m.obj) ==> b.s.rows[i] == s.rows[i]
    ensures s.rows[i].status == Superseded ==> b.s.rows[i].status == Superseded
    ensures b.s.rows[i].status == Superseded && Referenced(s, i) ==> s.rows[i].status == Superseded
  {
    assert RowAfter(s, ms, b.s, i);
    hide WellFormed, Names, Referenced;
  }

  /** Only operations queued before can wait for a superseded one. */
  lemma StrandedIsOld(s: State, ms: seq<Mutation>, b: Batch, i: nat, j: nat)
    requires Replaced(s, ms, b) && Creates(ms) && Dep(b.s, i, j) && b.s.rows[j].status == Superseded
    ensures j < i < |s.rows| && Dep(s, i, j) && Referenced(s, j)
  {
    hide *;
    ReplacedShape(s, ms, b);
    DepRows(b.s, i, j);
    OldRows(s, ms, b);
    NewRows(s, ms, b);
    assert j < |s.rows|;
    if |s.rows| <= i {
      NewDependsOnNew(s, ms, b, j, i - |s.rows|);
    }
    DepIf(s, i, j);
  }

  lemma DepRows(s: State, i: nat, j: nat)
    requires Dep(s, i, j)
    ensures j < i < |s.rows| && s.rows[j].m.op in Deps(s.rows[i].m)
  {
  }

  lemma DepIf(s: State, i: nat, j: nat)
    requires j < i < |s.rows| && s.rows[j].m.op in Deps(s.rows[i].m)
    ensures Dep(s, i, j) && Referenced(s, j)
  {
    hide Deps;
  }

  lemma StrandedIsLeft(s: State, gone: set<Uuid>, ms: seq<Mutation>, b: Batch, i: nat, j: nat)
    requires WellFormed(s) && PendingOps(s, gone) && Creates(ms) && NoneStranded(s) && Replaced(Marked(s, gone), ms, b)
    requires Dep(b.s, i, j) && Queued(b.s.rows[i].status) && b.s.rows[j].status == Superseded
    ensures LeftBehind(s, gone, ms, i)
  {
    var t := Marked(s, gone);
    MarkedPending(s, gone);
    StrandedIsOld(t, ms, b, i, j);
    QueuedAfter(t, ms, b, i);
    QueuedAfter(t, ms, b, j);
    hide Marked, WellFormed, PendingOps, Creates, Names, Deps, Replaced, Referenced;
    assert Dep(s, i, j);
    assert s.rows[j].m.op in gone;
  }

  lemma LeftWaits(s: State, gone: set<Uuid>, ms: seq<Mutation>, i: nat) returns (j: nat)
    requires WellFormed(s) && LeftBehind(s, gone, ms, i)
    ensures Dep(s, i, j) && s.rows[j].m.op in gone && Queued(s.rows[i].status) && s.rows[i].m.op !in gone
            && !Names(ms, s.rows[i].m.obj)
  {
    var d :| d in gone && d in Deps(s.rows[i].m);
    assert HasOp(s, i, d);
    j :| 0 <= j < i && s.rows[j].m.op == d;
    hide Deps, Names;
  }

  lemma LeftIsStranded(s: State, gone: set<Uuid>, ms: seq<Mutation>, b: Batch, i: nat)
    requires WellFormed(s) && PendingOps(s, gone) && Replaced(Marked(s, gone), ms, b) && LeftBehind(s, gone, ms, i)
    ensures !NoneStranded(b.s)
  {
    var t := Marked(s, gone);
    MarkedPending(s, gone);
    var j := LeftWaits(s, gone, ms, i);
    QueuedAfter(t, ms, b, i);
    QueuedAfter(t, ms, b, j);
    hide Marked, WellFormed, PendingOps, Names, Deps, Replaced, Referenced, LeftBehind;
    assert Dep(b.s, i, j);
  }

  /** Retiring pending operations and creating objects in their place leaves somebody waiting for a superseded
      operation exactly when a queued operation, itself not retired and of none of the created objects, waits for a
      retired one. */
  lemma ReplaceStrandsIff(s: State, gone: set<Uuid>, ms: seq<Mutation>)
    requires WellFormed(s) && PendingOps(s, gone) && Creates(ms) && NoneStranded(s) && CanCreateAll(Marked(s, gone), ms)
    ensures EnqueueAll(Running(Marked(s, gone), {}), ms).Running?
    ensures NoneStranded(EnqueueAll(Running(Marked(s, gone), {}), ms).s) <==> !LeavesBehind(s, gone, ms)
  {
    var b := EnqueueAll(Running(Marked(s, gone), {}), ms);
    MarkedPending(s, gone);
    ReplaceAll(Marked(s, gone), ms);
    hide EnqueueAll, WellFormed, PendingOps, Creates, CanCreateAll, LeftBehind, Marked, Replaced, Dep;
    if LeavesBehind(s, gone, ms) {
      var i :| 0 <= i < |s.rows| && LeftBehind(s, gone, ms, i);
      LeftIsStranded(s, gone, ms, b, i);
    } else {
      forall i, j | 0 <= j < i < |b.s.rows| && Dep(b.s, i, j) && Queued(b.s.rows[i].status)
        ensures b.s.rows[j].status != Superseded
      {
        if b.s.rows[j].status == Superseded {
          StrandedIsLeft(s, gone, ms, b, i, j);
          LeftIsOld(s, gone, ms, i);
          assert false;
        }
      }
    }
  }

  lemma LeftIsOld(s: State, gone: set<Uuid>, ms: seq<Mutation>, i: nat)
    requires LeftBehind(s, gone, ms, i)
    ensures i < |s.rows|
  {
  }
}
