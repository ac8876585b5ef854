/** Superseding, coalescing and appending: when they keep the outbox invariant. */
module OutboxEnqueue {
  import opened Ids
  import opened Optional
  import opened Outbox
  import opened OutboxChain

  // ---------------------------------------------------------------- superseding the dependents of an operation

  lemma DoomedPasses(s: State, c: Uuid, x: nat, y: nat)
    requires Dep(s, x, y) && Doomed(s, c, y)
    ensures Doomed(s, c, x)
  {
  }

  lemma SupersededRows(s: State, c: Uuid, o: Uuid)
    requires WellFormed(s)
    ensures var t := SupersedeDependents(s, c);
            && SameOps(s, t) && WellFormed(t) && SameWaits(s, t, o) && Baseline(s, o) == Baseline(t, o)
            && forall j: nat :: QueuedOf(t, o, j) == (QueuedOf(s, o, j) && !Doomed(s, c, j))
  {
    var t := SupersedeDependents(s, c);
    OpsKept(s, t);
    assert forall j: nat :: Unmet(s, j) == Unmet(t, j);
  }

  lemma NoneDoomedBelow(s: State, c: Uuid, o: Uuid, i: nat)
    requires ObjectOk(s, o) && QueuedOf(s, o, i) && !Blocked(s, o, i) && !Doomed(s, c, i)
    ensures forall j :: 0 <= j <= i && QueuedOf(s, o, j) ==> !Doomed(s, c, j)
  {
    FreeBelow(s, o, i);
    forall j | 0 <= j <= i && QueuedOf(s, o, j)
      ensures !Doomed(s, c, j)
    {
      if Doomed(s, c, j) {
        var p := (x: nat) => Doomed(s, c, x);
        forall x, y | Dep(s, x, y) && QueuedOf(s, o, y) && p(y)
          ensures p(x)
        {
          DoomedPasses(s, c, x, y);
        }
        Descend(s, o, j, i, p);
      }
    }
  }

  /** A smaller queue has no larger gaps. */
  lemma {:induction false} CountGap(s: State, t: State, o: Uuid, j: nat, n: nat)
    requires j <= n && forall k: nat :: QueuedOf(t, o, k) ==> QueuedOf(s, o, k)
    ensures Count(t, o, n) - Count(t, o, j) <= Count(s, o, n) - Count(s, o, j)
  {
    if j < n {
      CountGap(s, t, o, j, n - 1);
    }
  }

  lemma SupersedeLinked(s: State, t: State, c: Uuid, o: Uuid, i: nat)
    requires WellFormed(s) && ObjectOk(s, o) && t == SupersedeDependents(s, c)
    requires QueuedOf(t, o, i) && !Blocked(s, o, i)
    ensures Linked(t, o, i)
  {
    SupersededRows(s, c, o);
    DepSame(s, t);
    NoneDoomedBelow(s, c, o, i);
    assert Linked(s, o, i);
    assert i < |t.rows|;
    hide Doomed, Dep, Blocked, SupersedeDependents, QueuedOf, Baseline, WellFormed, ObjectOk, SameWaits;
    forall n | 0 <= n <= i
      ensures Count(s, o, n) == Count(t, o, n)
    {
      CountSame(s, t, o, n);
    }
    hide Count;
    forall j | 0 <= j < i && Before(t, o, j, i)
      ensures Dep(t, i, j)
    {
      assert Before(s, o, j, i);
    }
  }

  lemma SupersedeKeepsObject(s: State, c: Uuid, o: Uuid)
    requires WellFormed(s) && ObjectOk(s, o)
    ensures ObjectOk(SupersedeDependents(s, c), o)
  {
    var t := SupersedeDependents(s, c);
    SupersededRows(s, c, o);
    DepSame(s, t);
    assert forall j: nat :: QueuedOf(s, o, j) ==> j < |s.rows|;
    hide Doomed, Dep, Blocked, SupersedeDependents, QueuedOf, Baseline, WellFormed, SameWaits, Linked, Count,
         Referenced;
    forall j: nat
      ensures Blocked(s, o, j) == Blocked(t, o, j)
    {
      BlockedSame(s, t, o, j);
    }
    forall i | 0 <= i < |t.rows| && QueuedOf(t, o, i) && !Blocked(t, o, i)
      ensures Linked(t, o, i)
    {
      SupersedeLinked(s, t, c, o, i);
    }
    forall j | 0 <= j < |t.rows| && QueuedOf(t, o, j) && Count(t, o, j) + 1 < Count(t, o, |t.rows|)
      ensures Referenced(t, j)
    {
      CountGap(s, t, o, j, |t.rows|);
    }
  }

  lemma SupersedeKeeps(s: State, c: Uuid)
    requires Invariant(s)
    ensures Invariant(SupersedeDependents(s, c))
  {
    FromInvariant(s, 0);
    SupersededRows(s, c, 0);
    hide *;
    forall o
      ensures ObjectOk(SupersedeDependents(s, c), o)
    {
      FromInvariant(s, o);
      SupersedeKeepsObject(s, c, o);
    }
    IntoInvariant(SupersedeDependents(s, c));
  }

  // ---------------------------------------------------------------- appending

  lemma AppendedRows(s: State, m: Mutation)
    ensures var t := Appended(s, m);
            && |t.rows| == |s.rows| + 1
            && (forall i :: 0 <= i < |s.rows| ==> t.rows[i] == s.rows[i])
            && t.rows[|s.rows|] == Row(m, Pending)
            && (forall i: nat, j: nat :: i < |s.rows| ==> Dep(t, i, j) == Dep(s, i, j))
            && (forall j: nat :: Dep(t, |s.rows|, j) == (j < |s.rows| && s.rows[j].m.op in Deps(m)))
            && (forall j: nat :: j < |s.rows| ==> Unmet(t, j) == Unmet(s, j) && Stuck(t, j) == Stuck(s, j))
            && (forall o, j: nat :: j < |s.rows| ==>
                  QueuedOf(t, o, j) == QueuedOf(s, o, j) && StuckOf(t, o, j) == StuckOf(s, o, j))
            && (forall o :: QueuedOf(t, o, |s.rows|) == (m.obj == o))
  {
  }

  lemma AppendedWellFormed(s: State, m: Mutation)
    requires WellFormed(s) && ValidMutation(m) && Insertable(s, m)
    ensures WellFormed(Appended(s, m))
  {
    var t := Appended(s, m);
    forall i, d | 0 <= i < |t.rows| && d in Deps(t.rows[i].m)
      ensures HasOp(t, i, d)
    {
      assert HasOp(s, i, d);
      var j :| 0 <= j < i && s.rows[j].m.op == d;
      assert t.rows[j].m.op == d;
    }
    forall op | op in t.met
      ensures HasOp(t, |t.rows|, op)
    {
      assert HasOp(s, |s.rows|, op);
      var j :| 0 <= j < |s.rows| && s.rows[j].m.op == op;
      assert t.rows[j].m.op == op;
    }
  }

  lemma {:induction false} AppendedBlocked(s: State, m: Mutation, o: Uuid, i: nat)
    requires i < |s.rows|
    ensures Blocked(Appended(s, m), o, i) == Blocked(s, o, i)
  {
    AppendedRows(s, m);
    var t := Appended(s, m);
    hide Appended, Dep, Unmet, StuckOf;
    forall j | 0 <= j < i
      ensures Blocked(t, o, j) == Blocked(s, o, j)
    {
      AppendedBlocked(s, m, o, j);
    }
  }

  lemma {:induction false} AppendedCount(s: State, m: Mutation, o: Uuid, n: nat)
    requires n <= |s.rows|
    ensures Count(Appended(s, m), o, n) == Count(s, o, n)
    ensures Count(Appended(s, m), o, |s.rows| + 1) == Count(Appended(s, m), o, |s.rows|) + (if m.obj == o then 1 else 0)
  {
    AppendedRows(s, m);
    CountSame(s, Appended(s, m), o, n);
  }

  /** The new operation continues the chain: right base, and it waits for the last queued row. */
  ghost predicate Continues(s: State, m: Mutation) {
    && m.base == Projected(s, m.obj)
    && forall j :: 0 <= j < |s.rows| && Before(s, m.obj, j, |s.rows|) ==> s.rows[j].m.op in Deps(m)
  }

  lemma AppendLinked(s: State, m: Mutation, o: Uuid, i: nat)
    requires i <= |s.rows|
    requires if i < |s.rows| then Linked(s, o, i) else m.obj == o && Continues(s, m)
    ensures Linked(Appended(s, m), o, i)
  {
    var t := Appended(s, m);
    AppendedRows(s, m);
    hide Appended, Dep, Unmet, StuckOf, Stuck, QueuedOf, Count;
    assert Baseline(t, o) == Baseline(s, o) by { AppendedBaseline(s, m, o); }
    forall n | 0 <= n <= i
      ensures Count(t, o, n) == Count(s, o, n)
    {
      AppendedCount(s, m, o, n);
    }
    forall j | 0 <= j < i && Before(t, o, j, i)
      ensures Dep(t, i, j)
    {
      assert Before(s, o, j, i);
    }
  }

  lemma AppendedBaseline(s: State, m: Mutation, o: Uuid)
    ensures Baseline(Appended(s, m), o) == Baseline(s, o)
  {
  }

  lemma LastIsBlocked(s: State, o: Uuid, j: nat) returns (h: nat)
    requires BlockedLast(s, o) && QueuedOf(s, o, j) && Blocked(s, o, j)
    ensures Before(s, o, h, |s.rows|) && Blocked(s, o, h)
  {
    CountMonotone(s, o, j, |s.rows|);
    h := Predecessor(s, o, |s.rows|);
    hide Blocked;
    if h < j {
      CountMonotone(s, o, h, j);
    }
  }

  /** A row appended behind a blocked queue is itself blocked. */
  lemma AppendBlocked(s: State, m: Mutation, j: nat)
    requires WellFormed(s) && ObjectOk(s, m.obj) && Continues(s, m) && QueuedOf(s, m.obj, j) && Blocked(s, m.obj, j)
    ensures Blocked(Appended(s, m), m.obj, |s.rows|)
  {
    var o, n := m.obj, |s.rows|;
    var t := Appended(s, m);
    hide Blocked, Chain, Held, Linked;
    var h := LastIsBlocked(s, o, j);
    QueuedIsUnmet(s, h);
    AppendedRows(s, m);
    AppendedBlocked(s, m, o, h);
    hide Appended, Unmet, Stuck, StuckOf, Deps, WellFormed, Count, BlockedLast;
    assert Dep(t, n, h) && Unmet(t, h) && Blocked(t, o, h);
    BlockedBy(t, o, n, h);
  }

  lemma BlockedBy(s: State, o: Uuid, i: nat, j: nat)
    requires Dep(s, i, j) && Unmet(s, j) && Blocked(s, o, j)
    ensures Blocked(s, o, i)
  {
  }

  lemma AppendKeepsOwn(s: State, m: Mutation)
    requires WellFormed(s) && ObjectOk(s, m.obj) && Continues(s, m)
    ensures ObjectOk(Appended(s, m), m.obj)
  {
    var o, n := m.obj, |s.rows|;
    var t := Appended(s, m);
    AppendedRows(s, m);
    forall i | 0 <= i < n
      ensures Blocked(t, o, i) == Blocked(s, o, i) && Count(t, o, i) == Count(s, o, i)
    {
      AppendedBlocked(s, m, o, i);
      AppendedCount(s, m, o, i);
    }
    AppendedCount(s, m, o, n);
    hide Blocked, QueuedOf, Count, Appended, Dep, Unmet, Stuck, StuckOf, Linked, Continues, Deps, WellFormed;
    forall i | 0 <= i < |t.rows| && QueuedOf(t, o, i) && !Blocked(t, o, i)
      ensures Linked(t, o, i)
    {
      AppendLinked(s, m, o, i);
    }
    forall j, i | 0 <= j < i < |t.rows| && QueuedOf(t, o, j) && QueuedOf(t, o, i) && Blocked(t, o, j)
      ensures Blocked(t, o, i)
    {
      if i == n {
        AppendBlocked(s, m, j);
      }
    }
    forall j | 0 <= j < |t.rows| && QueuedOf(t, o, j) && Count(t, o, j) + 1 < Count(t, o, |t.rows|)
      ensures Referenced(t, j)
    {
      HeldAfterAppend(s, m, j);
    }
  }

  lemma HeldAfterAppend(s: State, m: Mutation, j: nat)
    requires Held(s, m.obj) && Continues(s, m) && j < |s.rows| && QueuedOf(s, m.obj, j)
    ensures Referenced(Appended(s, m), j)
  {
    var o, n := m.obj, |s.rows|;
    AppendedRows(s, m);
    CountMonotone(s, o, j, n);
    hide Appended, Count, QueuedOf;
    if Count(s, o, j) + 1 < Count(s, o, n) {
      assert Referenced(s, j);
    } else {
      assert Before(s, o, j, n);
      assert Dep(Appended(s, m), n, j);
    }
  }

  lemma AppendKeepsOther(s: State, m: Mutation, o: Uuid)
    requires ObjectOk(s, o) && o != m.obj
    ensures ObjectOk(Appended(s, m), o)
  {
    var n := |s.rows|;
    var t := Appended(s, m);
    AppendedRows(s, m);
    forall i | 0 <= i < n
      ensures Blocked(t, o, i) == Blocked(s, o, i) && Count(t, o, i) == Count(s, o, i)
    {
      AppendedBlocked(s, m, o, i);
      AppendedCount(s, m, o, i);
    }
    AppendedCount(s, m, o, n);
    hide Blocked, QueuedOf, Count, Appended, Unmet, Stuck, StuckOf, Linked, Deps;
    forall i | 0 <= i < |t.rows| && QueuedOf(t, o, i) && !Blocked(t, o, i)
      ensures Linked(t, o, i)
    {
      AppendLinked(s, m, o, i);
    }
  }

  lemma AppendKeeps(s: State, m: Mutation)
    requires Invariant(s) && ValidMutation(m) && Insertable(s, m) && Continues(s, m)
    ensures Invariant(Appended(s, m))
  {
    FromInvariant(s, 0);
    AppendedWellFormed(s, m);
    hide *;
    forall o
      ensures ObjectOk(Appended(s, m), o)
    {
      FromInvariant(s, o);
      if o == m.obj {
        AppendKeepsOwn(s, m);
      } else {
        AppendKeepsOther(s, m, o);
      }
    }
    IntoInvariant(Appended(s, m));
  }

  // ---------------------------------------------------------------- coalescing

  lemma {:induction false} LastIs(s: State, o: Uuid, j: nat, n: nat)
    requires n <= |s.rows| && Before(s, o, j, n)
    ensures LastQueued(s, o, n) == Some(s.rows[j].m.op)
  {
    if n - 1 != j {
      CountMonotone(s, o, j, n - 1);
      LastIs(s, o, j, n - 1);
    }
  }

  /** What the code checks of a later operation makes it continue the chain. */
  lemma FollowerContinues(s: State, m: Mutation)
    requires FollowsProjection(s, m)
    ensures Continues(s, m)
  {
    forall j | 0 <= j < |s.rows| && Before(s, m.obj, j, |s.rows|)
      ensures s.rows[j].m.op in Deps(m)
    {
      LastIs(s, m.obj, j, |s.rows|);
    }
  }

  /** A later operation of an object supersedes nothing: every queued row is a prerequisite of something. */
  lemma FollowerCoalescesNothing(s: State, m: Mutation)
    requires ObjectOk(s, m.obj) && FollowsProjection(s, m)
    ensures Coalesced(s, m) == s
  {
    forall j | 0 <= j < |s.rows|
      ensures !Coalesces(s, m, j)
    {
      if Coalesces(s, m, j) {
        CountMonotone(s, m.obj, j, |s.rows|);
        assert QueuedOf(s, m.obj, j);
        if Count(s, m.obj, j) + 1 == Count(s, m.obj, |s.rows|) {
          LastIs(s, m.obj, j, |s.rows|);
        }
      }
    }
    assert Coalesced(s, m).rows == s.rows;
  }

  lemma CoalescedRows(s: State, m: Mutation)
    requires WellFormed(s)
    ensures var t := Coalesced(s, m);
            && SameOps(s, t) && WellFormed(t)
            && (forall o :: SameWaits(s, t, o) && Baseline(s, o) == Baseline(t, o))
            && (forall o, j: nat :: QueuedOf(t, o, j) == (QueuedOf(s, o, j) && !Coalesces(s, m, j)))
  {
    var t := Coalesced(s, m);
    OpsKept(s, t);
    assert forall j: nat :: Unmet(s, j) == Unmet(t, j);
    forall o
      ensures SameWaits(s, t, o) && Baseline(s, o) == Baseline(t, o)
    {
    }
  }

  lemma CoalesceKeepsOther(s: State, m: Mutation, o: Uuid)
    requires WellFormed(s) && ObjectOk(s, o) && o != m.obj
    ensures ObjectOk(Coalesced(s, m), o)
  {
    var t := Coalesced(s, m);
    CoalescedRows(s, m);
    assert forall j: nat :: QueuedOf(s, o, j) == QueuedOf(t, o, j);
    hide *;
    ViewByWaits(s, t, o);
    KeptByView(s, t, o);
  }

  lemma EmptyQueueOk(s: State, o: Uuid)
    requires Count(s, o, |s.rows|) == 0
    ensures ObjectOk(s, o) && forall j: nat :: !QueuedOf(s, o, j)
  {
    forall j: nat
      ensures !QueuedOf(s, o, j)
    {
      if QueuedOf(s, o, j) {
        CountMonotone(s, o, j, |s.rows|);
      }
    }
  }

  // ---------------------------------------------------------------- one operation of a batch

  /** The state the new row is appended to. */
  function Prepared(s: State, coalesced: set<Uuid>, m: Mutation): State {
    if m.obj in coalesced then s else Coalesced(s, m)
  }

  /** A create must find its object's queue empty: no queued operation of its own object is among its dependencies,
      and none is left from earlier in the batch. */
  ghost predicate CreateAlone(s: State, coalesced: set<Uuid>, m: Mutation) {
    m.kind == Create ==>
      forall j :: 0 <= j < |s.rows| && QueuedOf(s, m.obj, j) ==> m.obj !in coalesced && s.rows[j].m.op !in Deps(m)
  }

  lemma CreateFindsEmpty(s: State, coalesced: set<Uuid>, m: Mutation)
    requires WellFormed(s) && CreateAllowed(s, m.obj) && m.kind == Create
    ensures CreateAlone(s, coalesced, m) <==> Count(Prepared(s, coalesced, m), m.obj, |s.rows|) == 0
  {
    var t := Prepared(s, coalesced, m);
    var o := m.obj;
    CoalescedRows(s, m);
    assert |t.rows| == |s.rows|;
    assert forall j: nat :: QueuedOf(s, o, j) ==> Pending == s.rows[j].status && !Referenced(s, j);
    assert forall j: nat :: QueuedOf(t, o, j) == (QueuedOf(s, o, j) && (o in coalesced || s.rows[j].m.op in Deps(m)));
    hide Coalesced, CreateAllowed, Deps, Referenced, WellFormed, Coalesces;
    if CreateAlone(s, coalesced, m) {
      if Count(t, o, |t.rows|) > 0 {
        var h := Predecessor(t, o, |t.rows|);
      }
    } else {
      var j :| 0 <= j < |s.rows| && QueuedOf(s, o, j) && !(o !in coalesced && s.rows[j].m.op !in Deps(m));
      CountMonotone(t, o, j, |t.rows|);
    }
  }

  lemma PreparedKeepsOthers(s: State, coalesced: set<Uuid>, m: Mutation)
    requires Invariant(s)
    ensures var t := Prepared(s, coalesced, m);
            WellFormed(t) && SameOps(s, t) && Baseline(s, m.obj) == Baseline(t, m.obj)
                && forall o :: o != m.obj ==> ObjectOk(t, o)
  {
    FromInvariant(s, 0);
    CoalescedRows(s, m);
    var t := Prepared(s, coalesced, m);
    hide WellFormed, ObjectOk, Coalesced, SameOps, SameWaits, Baseline, QueuedOf, Coalesces;
    forall o | o != m.obj
      ensures ObjectOk(t, o)
    {
      FromInvariant(s, o);
      CoalesceKeepsOther(s, m, o);
    }
  }

  lemma InsertableKept(s: State, t: State, m: Mutation)
    requires SameOps(s, t) && Insertable(s, m)
    ensures Insertable(t, m)
  {
    forall d | d in Deps(m)
      ensures HasOp(t, |t.rows|, d)
    {
      assert HasOp(s, |s.rows|, d);
      var j :| 0 <= j < |s.rows| && s.rows[j].m.op == d;
      assert t.rows[j].m.op == d;
    }
    assert forall j :: 0 <= j < |t.rows| ==> s.rows[j].m.op != m.op;
  }

  lemma CreateContinues(s: State, t: State, m: Mutation)
    requires m.kind == Create && m.base == 0 && m.obj !in s.baselines && Baseline(s, m.obj) == Baseline(t, m.obj)
    requires Count(t, m.obj, |t.rows|) == 0
    ensures Continues(t, m)
  {
    EmptyQueueOk(t, m.obj);
  }

  lemma CreateKeeps(s: State, coalesced: set<Uuid>, m: Mutation)
    requires Invariant(s) && Admitted(s, m) && m.kind == Create && CreateAlone(s, coalesced, m)
    ensures Invariant(Appended(Prepared(s, coalesced, m), m))
  {
    var t := Prepared(s, coalesced, m);
    FromInvariant(s, 0);
    CreateFindsEmpty(s, coalesced, m);
    PreparedKeepsOthers(s, coalesced, m);
    CreateContinues(s, t, m);
    EmptyQueueOk(t, m.obj);
    InsertableKept(s, t, m);
    assert ValidMutation(m);
    hide *;
    IntoInvariant(t);
    AppendKeeps(t, m);
  }

  lemma FollowKeeps(s: State, coalesced: set<Uuid>, m: Mutation)
    requires Invariant(s) && Admitted(s, m) && m.kind != Create
    ensures Prepared(s, coalesced, m) == s && Invariant(Appended(s, m))
  {
    FromInvariant(s, m.obj);
    FollowerCoalescesNothing(s, m);
    FollowerContinues(s, m);
    AppendKeeps(s, m);
  }

  /** One operation of an accepted batch keeps the invariant when a create stands alone. */
  lemma EnqueueOneKeeps(b: Batch, m: Mutation)
    requires b.Running? && Invariant(b.s) && CreateAlone(b.s, b.coalesced, m)
    ensures EnqueueOne(b, m).Running? ==> Invariant(EnqueueOne(b, m).s)
  {
    hide Invariant, CreateAlone, Appended, Coalesced, ValidMutation, Redundant;
    if EnqueueOne(b, m).Running? && !Redundant(b.s, m) {
      if m.kind == Create {
        CreateKeeps(b.s, b.coalesced, m);
      } else {
        FollowKeeps(b.s, b.coalesced, m);
      }
    }
  }

  predicate NoneStuck(s: State) {
    forall j :: 0 <= j < |s.rows| ==> !Stuck(s, j)
  }

  lemma {:induction false} UnstuckIsFree(s: State, o: Uuid, i: nat)
    requires NoneStuck(s)
    ensures !Blocked(s, o, i)
  {
    forall j | 0 <= j < i && Dep(s, i, j)
      ensures !StuckOf(s, o, j) && !Blocked(s, o, j)
    {
      UnstuckIsFree(s, o, j);
    }
  }

  /** Two queued operations of an object without a baseline both start from revision zero. */
  ghost predicate Forked(s: State, o: Uuid) {
    && Baseline(s, o) == 0
    && exists j, i :: 0 <= j < i < |s.rows| && QueuedOf(s, o, j) && QueuedOf(s, o, i) && s.rows[i].m.base == 0
  }

  lemma ForkBreaksChain(s: State, o: Uuid)
    requires NoneStuck(s) && Forked(s, o)
    ensures !Invariant(s)
  {
    var j, i :| 0 <= j < i < |s.rows| && QueuedOf(s, o, j) && QueuedOf(s, o, i) && s.rows[i].m.base == 0;
    UnstuckIsFree(s, o, i);
    CountMonotone(s, o, j, i);
    if Invariant(s) {
      FromInvariant(s, o);
    }
  }
}
