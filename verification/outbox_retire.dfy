/** Superseding whole queues at once keeps every queue a chain; superseding them with all their dependents strands
    nobody. */
module OutboxRetire {
  import opened Ids
  import opened Outbox
  import opened OutboxChain
  import opened OutboxEnqueue
  import opened OutboxProgress

  /** The operations are pending, and take the whole queue of their objects with them. */
  ghost predicate WholeQueues(s: State, gone: set<Uuid>) {
    && (forall i :: 0 <= i < |s.rows| && s.rows[i].m.op in gone ==> s.rows[i].status == Pending)
    && (forall i, j :: (0 <= i < |s.rows| && 0 <= j < |s.rows| && s.rows[i].m.op in gone
                        && s.rows[j].m.obj == s.rows[i].m.obj
                        && Queued(s.rows[j].status)) ==> s.rows[j].m.op in gone)
  }

  /** Whatever is queued behind one of the operations is one of them. */
  ghost predicate ClosedUnder(s: State, gone: set<Uuid>) {
    forall i, d :: 0 <= i < |s.rows| && d in Deps(s.rows[i].m) && d in gone && Queued(s.rows[i].status) ==>
      s.rows[i].m.op in gone
  }

  predicate Emptied(s: State, gone: set<Uuid>, o: Uuid) {
    exists i :: 0 <= i < |s.rows| && s.rows[i].m.op in gone && s.rows[i].m.obj == o
  }

  lemma MarkedSame(s: State, gone: set<Uuid>)
    ensures SameOps(s, Marked(s, gone)) && Marked(s, gone).baselines == s.baselines
    ensures forall i :: 0 <= i < |s.rows| ==>
              Marked(s, gone).rows[i].status == (if s.rows[i].m.op in gone then Superseded else s.rows[i].status)
  {
  }

  lemma MarkedFormed(s: State, gone: set<Uuid>)
    requires WellFormed(s) && WholeQueues(s, gone)
    ensures WellFormed(Marked(s, gone))
  {
    MarkedSame(s, gone);
    hide Marked, SameOps, WellFormed;
    OpsKept(s, Marked(s, gone));
  }

  lemma MarkedWaits(s: State, gone: set<Uuid>, o: Uuid)
    requires WholeQueues(s, gone)
    ensures SameWaits(s, Marked(s, gone), o)
  {
    MarkedSame(s, gone);
    hide Marked;
  }

  lemma {:induction false} CountEmptied(s: State, gone: set<Uuid>, o: Uuid, n: nat)
    requires WholeQueues(s, gone) && Emptied(s, gone, o) && n <= |s.rows|
    ensures Count(Marked(s, gone), o, n) == 0
  {
    if n > 0 {
      CountEmptied(s, gone, o, n - 1);
      MarkedSame(s, gone);
      var i :| 0 <= i < |s.rows| && s.rows[i].m.op in gone && s.rows[i].m.obj == o;
      hide Marked;
      assert !QueuedOf(Marked(s, gone), o, n - 1);
    }
  }

  lemma QueueKept(s: State, gone: set<Uuid>, o: Uuid, j: nat)
    requires !Emptied(s, gone, o)
    ensures QueuedOf(s, o, j) == QueuedOf(Marked(s, gone), o, j)
  {
    MarkedSame(s, gone);
    hide Marked;
  }

  lemma MarkedObject(s: State, gone: set<Uuid>, o: Uuid)
    requires WholeQueues(s, gone) && ObjectOk(s, o)
    ensures ObjectOk(Marked(s, gone), o)
  {
    var t := Marked(s, gone);
    MarkedSame(s, gone);
    hide *;
    MarkedLength(s, gone);
    if Emptied(s, gone, o) {
      CountEmptied(s, gone, o, |s.rows|);
      EmptyQueueOk(t, o);
    } else {
      forall j: nat
        ensures QueuedOf(s, o, j) == QueuedOf(t, o, j)
      {
        QueueKept(s, gone, o, j);
      }
      MarkedWaits(s, gone, o);
      SameBaseline(s, t, o);
      ViewByWaits(s, t, o);
      KeptByView(s, t, o);
    }
  }

  lemma MarkedLength(s: State, gone: set<Uuid>)
    ensures |Marked(s, gone).rows| == |s.rows|
  {
  }

  lemma SameBaseline(s: State, t: State, o: Uuid)
    requires s.baselines == t.baselines
    ensures Baseline(s, o) == Baseline(t, o)
  {
  }

  /** Retiring whole queues keeps every remaining queue a chain. */
  lemma RetireKeeps(s: State, gone: set<Uuid>)
    requires Invariant(s) && WholeQueues(s, gone)
    ensures Invariant(Marked(s, gone))
  {
    var t := Marked(s, gone);
    FromInvariant(s, 0);
    hide *;
    MarkedFormed(s, gone);
    forall o
      ensures ObjectOk(t, o)
    {
      FromInvariant(s, o);
      MarkedObject(s, gone, o);
    }
    IntoInvariant(t);
  }

  /** Retiring operations together with their queued dependents strands nobody. */
  lemma RetireStrandsNobody(s: State, gone: set<Uuid>)
    requires NoneStranded(s) && ClosedUnder(s, gone)
    ensures NoneStranded(Marked(s, gone))
  {
    var t := Marked(s, gone);
    MarkedSame(s, gone);
    DepSame(s, t);
    hide Marked;
    forall i, j | 0 <= j < i < |t.rows| && Dep(t, i, j) && Queued(t.rows[i].status)
      ensures t.rows[j].status != Superseded
    {
      assert Dep(s, i, j) && s.rows[i].m.op !in gone;
      assert s.rows[j].m.op in Deps(s.rows[i].m);
    }
  }

  // ---------------------------------------------------------------- one row at a time

  lemma {:induction false} MarkedIndex(s: State, gone: set<Uuid>, op: Uuid, n: nat)
    requires n <= |s.rows|
    ensures |Marked(s, gone).rows| == |s.rows| && IndexOf(Marked(s, gone), op, n) == IndexOf(s, op, n)
  {
    if n > 0 {
      MarkedIndex(s, gone, op, n - 1);
    }
  }

  lemma MarkedRow(s: State, gone: set<Uuid>, i: nat)
    requires i < |s.rows|
    ensures |Marked(s, gone).rows| == |s.rows| && Marked(s, gone).rows[i].m == s.rows[i].m
    ensures s.rows[i].m.op !in gone ==> Marked(s, gone).rows[i] == s.rows[i]
  {
  }

  lemma MarkOne(s: State, gone: set<Uuid>, i: nat)
    requires WellFormed(s) && i < |s.rows|
    ensures |Marked(s, gone).rows| == |s.rows|
            && SetStatus(Marked(s, gone), i, Superseded) == Marked(s, gone + {s.rows[i].m.op})
  {
    assert forall j :: 0 <= j < |s.rows| && j != i ==> s.rows[j].m.op != s.rows[i].m.op;
    hide WellFormed;
    assert SetStatus(Marked(s, gone), i, Superseded).rows == Marked(s, gone + {s.rows[i].m.op}).rows;
  }
}
