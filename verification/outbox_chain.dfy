/** Every step of the outbox keeps each object's queue a dependency chain from its baseline. */
module OutboxChain {
  import opened Ids
  import opened Outbox

  // ---------------------------------------------------------------- counting

  lemma {:induction false} CountMonotone(s: State, o: Uuid, j: nat, i: nat)
    requires j <= i
    ensures Count(s, o, j) <= Count(s, o, i)
    ensures j < i && QueuedOf(s, o, j) ==> Count(s, o, j) + 1 <= Count(s, o, i)
  {
    if j < i {
      CountMonotone(s, o, j, i - 1);
    }
  }

  /** A queued row with queued rows before it has a predecessor. */
  lemma {:induction false} Predecessor(s: State, o: Uuid, i: nat) returns (j: nat)
    requires Count(s, o, i) > 0
    ensures Before(s, o, j, i)
  {
    if QueuedOf(s, o, i - 1) {
      j := i - 1;
    } else {
      j := Predecessor(s, o, i - 1);
    }
  }

  lemma {:induction false} CountSame(s: State, t: State, o: Uuid, n: nat)
    requires forall j :: 0 <= j < n ==> QueuedOf(s, o, j) == QueuedOf(t, o, j)
    ensures Count(s, o, n) == Count(t, o, n)
  {
    if n > 0 {
      CountSame(s, t, o, n - 1);
    }
  }

  /** Taking row a out of the queue lowers the counts after it by one. */
  lemma {:induction false} CountWithout(s: State, t: State, o: Uuid, a: nat, n: nat)
    requires QueuedOf(s, o, a) && !QueuedOf(t, o, a)
    requires forall j :: 0 <= j < n && j != a ==> QueuedOf(s, o, j) == QueuedOf(t, o, j)
    ensures Count(t, o, n) == Count(s, o, n) - (if a < n then 1 else 0)
  {
    if n > 0 {
      CountWithout(s, t, o, a, n - 1);
    }
  }

  /** What holds of a queued row and passes from prerequisite to dependent holds of every later row of the chain. */
  lemma {:induction false} Descend(s: State, o: Uuid, j: nat, i: nat, p: nat -> bool)
    requires QueuedOf(s, o, j) && QueuedOf(s, o, i) && j <= i && p(j)
    requires forall k, h :: j < k <= i && QueuedOf(s, o, k) && Before(s, o, h, k) ==> Dep(s, k, h)
    requires forall x, y :: Dep(s, x, y) && QueuedOf(s, o, y) && p(y) ==> p(x)
    ensures p(i)
  {
    if j < i {
      CountMonotone(s, o, j, i);
      var h := Predecessor(s, o, i);
      if h < j {
        CountMonotone(s, o, h, j);
      }
      Descend(s, o, j, h, p);
    }
  }

  /** The chain below a free row is linked. */
  lemma FreeBelow(s: State, o: Uuid, i: nat)
    requires ObjectOk(s, o) && QueuedOf(s, o, i) && !Blocked(s, o, i)
    ensures forall k :: 0 <= k <= i && QueuedOf(s, o, k) ==> !Blocked(s, o, k) && Linked(s, o, k)
  {
    assert i < |s.rows|;
    hide Blocked, Linked, QueuedOf;
  }

  // ---------------------------------------------------------------- blocked rows across a change

  /** Same operations in the same order. */
  predicate SameOps(s: State, t: State) {
    |s.rows| == |t.rows| && s.met == t.met && forall i :: 0 <= i < |s.rows| ==> s.rows[i].m == t.rows[i].m
  }

  lemma {:induction false} BlockedCarries(s: State, t: State, o: Uuid, i: nat)
    requires SameOps(s, t)
    requires forall j :: 0 <= j < i && StuckOf(s, o, j) ==> StuckOf(t, o, j)
    requires forall j :: 0 <= j < i && Unmet(s, j) && Blocked(s, o, j) ==> Unmet(t, j)
    requires Blocked(s, o, i)
    ensures Blocked(t, o, i)
  {
    hide StuckOf, Unmet;
    var j :| 0 <= j < i && Dep(s, i, j) && (StuckOf(s, o, j) || (Unmet(s, j) && Blocked(s, o, j)));
    assert Dep(t, i, j);
    if !StuckOf(s, o, j) {
      BlockedCarries(s, t, o, j);
    }
  }

  /** What an object sees unchanged. */
  ghost predicate SameView(s: State, t: State, o: Uuid) {
    && SameOps(s, t) && Baseline(s, o) == Baseline(t, o)
    && (forall j :: 0 <= j < |s.rows| ==> QueuedOf(s, o, j) == QueuedOf(t, o, j))
    && (forall j :: 0 <= j < |s.rows| ==> Blocked(s, o, j) == Blocked(t, o, j))
  }

  lemma DepSame(s: State, t: State)
    requires SameOps(s, t)
    ensures forall i: nat, j: nat :: Dep(s, i, j) == Dep(t, i, j)
    ensures forall j: nat :: Referenced(s, j) == Referenced(t, j)
  {
    assert forall i: nat, j: nat :: Dep(s, i, j) == Dep(t, i, j);
    forall j: nat
      ensures Referenced(s, j) == Referenced(t, j)
    {
      if i: nat :| j < i < |s.rows| && Dep(s, i, j) { assert Dep(t, i, j); }
      if i: nat :| j < i < |s.rows| && Dep(t, i, j) { assert Dep(s, i, j); }
    }
  }

  lemma KeptByView(s: State, t: State, o: Uuid)
    requires ObjectOk(s, o) && SameView(s, t, o)
    ensures ObjectOk(t, o)
  {
    forall n | 0 <= n <= |s.rows|
      ensures Count(s, o, n) == Count(t, o, n)
    {
      CountSame(s, t, o, n);
    }
    DepSame(s, t);
    hide Blocked, Dep, QueuedOf, Count, Baseline, Referenced;
    forall i | 0 <= i < |t.rows| && QueuedOf(t, o, i) && !Blocked(t, o, i)
      ensures Linked(t, o, i)
    {
      assert Linked(s, o, i);
      assert forall j :: 0 <= j < i && Before(t, o, j, i) ==> Before(s, o, j, i);
    }
  }

  lemma OpsKept(s: State, t: State)
    requires WellFormed(s) && SameOps(s, t)
    requires forall i :: 0 <= i < |s.rows| && s.rows[i].status == Conflict ==> t.rows[i].status == Conflict
    ensures WellFormed(t)
  {
    forall i, d | 0 <= i < |t.rows| && d in Deps(t.rows[i].m)
      ensures HasOp(t, i, d)
    {
      assert HasOp(s, i, d);
      var j :| 0 <= j < i && s.rows[j].m.op == d;
      assert t.rows[j].m.op == d;
    }
    forall op | op in t.met
      ensures HasOp(t, |t.rows|, op)
    {
      assert HasOp(s, |s.rows|, op);
      var j :| 0 <= j < |s.rows| && s.rows[j].m.op == op;
      assert t.rows[j].m.op == op;
    }
  }

  // ---------------------------------------------------------------- status changes

  /** Same prerequisites met and the same operations of o stuck. */
  ghost predicate SameWaits(s: State, t: State, o: Uuid) {
    && (forall j: nat :: Unmet(s, j) == Unmet(t, j))
    && (forall j: nat :: StuckOf(s, o, j) == StuckOf(t, o, j))
  }

  lemma BlockedSame(s: State, t: State, o: Uuid, i: nat)
    requires SameOps(s, t) && SameWaits(s, t, o)
    ensures Blocked(s, o, i) == Blocked(t, o, i)
  {
    hide StuckOf, Unmet, Blocked;
    if Blocked(s, o, i) {
      BlockedCarries(s, t, o, i);
    }
    if Blocked(t, o, i) {
      BlockedCarries(t, s, o, i);
    }
  }

  lemma ViewByWaits(s: State, t: State, o: Uuid)
    requires SameOps(s, t) && SameWaits(s, t, o) && Baseline(s, o) == Baseline(t, o)
    requires forall j: nat :: QueuedOf(s, o, j) == QueuedOf(t, o, j)
    ensures SameView(s, t, o)
  {
    hide SameWaits, Blocked, Baseline, QueuedOf;
    forall j | 0 <= j < |s.rows|
      ensures Blocked(s, o, j) == Blocked(t, o, j)
    {
      BlockedSame(s, t, o, j);
    }
  }

  lemma AttemptKeeps(s: State, op: Uuid)
    requires Invariant(s)
    ensures Invariant(Attempt(s, op))
  {
    var i := IndexOf(s, op, |s.rows|);
    if i < |s.rows| && Ready(s, i) {
      var t := SetStatus(s, i, Attempted);
      OpsKept(s, t);
      forall o
        ensures ObjectOk(t, o)
      {
        ViewByWaits(s, t, o);
        KeptByView(s, t, o);
      }
    }
  }

  /** A row about to become final is not one that later conflicts count as met. */
  lemma QueuedIsUnmet(s: State, a: nat)
    requires WellFormed(s) && a < |s.rows| && Queued(s.rows[a].status)
    ensures Unmet(s, a) && !Stuck(s, a)
  {
  }

  // ---------------------------------------------------------------- accepted results

  lemma ReadyIsFree(s: State, o: Uuid, a: nat)
    requires Ready(s, a)
    ensures !Blocked(s, o, a)
  {
  }

  lemma BlockedAfterAccept(s: State, t: State, o: Uuid, a: nat, i: nat)
    requires WellFormed(s) && Ready(s, a) && t.rows == SetStatus(s, a, Accepted).rows && t.met == s.met
    ensures Blocked(s, o, i) == Blocked(t, o, i)
  {
    QueuedIsUnmet(s, a);
    ReadyIsFree(s, o, a);
    assert SameOps(s, t);
    assert forall j: nat :: j != a ==> Unmet(s, j) == Unmet(t, j);
    assert forall j: nat :: StuckOf(s, o, j) == StuckOf(t, o, j);
    assert !Unmet(t, a);
    hide Unmet, StuckOf, Ready, WellFormed, Blocked;
    if Blocked(s, o, i) {
      BlockedCarries(s, t, o, i);
    }
    if Blocked(t, o, i) {
      BlockedCarries(t, s, o, i);
    }
  }

  /** Only the first operation of an object's chain can be accepted, and its base is the baseline. */
  lemma ReadyIsFirst(s: State, a: nat)
    requires Invariant(s) && Ready(s, a)
    ensures Count(s, s.rows[a].m.obj, a) == 0 && s.rows[a].m.base == Baseline(s, s.rows[a].m.obj)
  {
    var o := s.rows[a].m.obj;
    ReadyIsFree(s, o, a);
    assert ObjectOk(s, o) && QueuedOf(s, o, a);
    assert Linked(s, o, a);
    if Count(s, o, a) > 0 {
      var h := Predecessor(s, o, a);
      QueuedIsUnmet(s, h);
    }
  }

  lemma CountsAfterAccept(s: State, t: State, o: Uuid, a: nat, i: nat)
    requires QueuedOf(s, o, a) && t.rows == SetStatus(s, a, Accepted).rows
    ensures Count(t, o, i) == Count(s, o, i) - (if a < i then 1 else 0)
  {
    CountWithout(s, t, o, a, i);
  }

  lemma AfterFirst(s: State, o: Uuid, a: nat, i: nat)
    requires QueuedOf(s, o, a) && Count(s, o, a) == 0 && QueuedOf(s, o, i)
    ensures a <= i
  {
    if i < a {
      CountMonotone(s, o, i, a);
    }
  }

  lemma LinkedAfterAccept(s: State, t: State, o: Uuid, a: nat, i: nat)
    requires QueuedOf(s, o, a) && t.rows == SetStatus(s, a, Accepted).rows && Count(s, o, a) == 0 && SameOps(s, t)
    requires Baseline(t, o) == Baseline(s, o) + 1 && Linked(s, o, i) && QueuedOf(t, o, i)
    ensures Linked(t, o, i)
  {
    AfterFirst(s, o, a, i);
    DepSame(s, t);
    CountsAfterAccept(s, t, o, a, i);
    assert forall j: nat :: QueuedOf(t, o, j) ==> QueuedOf(s, o, j);
    hide Count, QueuedOf, Dep, Baseline;
    forall j | 0 <= j < i && Before(t, o, j, i)
      ensures Dep(t, i, j)
    {
      CountsAfterAccept(s, t, o, a, j);
      AfterFirst(s, o, a, j);
      assert Before(s, o, j, i);
    }
  }

  lemma AcceptKeepsOwn(s: State, t: State, o: Uuid, a: nat)
    requires Invariant(s) && Ready(s, a) && s.rows[a].m.obj == o
    requires t.rows == SetStatus(s, a, Accepted).rows && t.met == s.met && Baseline(t, o) == Baseline(s, o) + 1
    ensures ObjectOk(t, o)
  {
    ReadyIsFirst(s, a);
    assert SameOps(s, t) && QueuedOf(s, o, a) && ObjectOk(s, o);
    assert forall j: nat :: QueuedOf(t, o, j) ==> QueuedOf(s, o, j);
    forall j: nat
      ensures Blocked(s, o, j) == Blocked(t, o, j)
    {
      BlockedAfterAccept(s, t, o, a, j);
    }
    DepSame(s, t);
    hide Blocked, QueuedOf, Count, Baseline, Linked, Referenced, Invariant, Ready, Dep;
    forall i | 0 <= i < |t.rows| && QueuedOf(t, o, i) && !Blocked(t, o, i)
      ensures Linked(t, o, i)
    {
      LinkedAfterAccept(s, t, o, a, i);
    }
    forall j | 0 <= j < |t.rows| && QueuedOf(t, o, j) && Count(t, o, j) + 1 < Count(t, o, |t.rows|)
      ensures Referenced(t, j)
    {
      CountsAfterAccept(s, t, o, a, j);
      CountsAfterAccept(s, t, o, a, |t.rows|);
    }
  }

  lemma AcceptKeepsOther(s: State, t: State, o: Uuid, a: nat)
    requires Invariant(s) && Ready(s, a) && s.rows[a].m.obj != o
    requires t.rows == SetStatus(s, a, Accepted).rows && t.met == s.met && Baseline(t, o) == Baseline(s, o)
    ensures ObjectOk(t, o)
  {
    assert SameOps(s, t);
    assert forall j: nat :: QueuedOf(t, o, j) == QueuedOf(s, o, j);
    hide Blocked, QueuedOf, Baseline, Ready;
    forall j: nat
      ensures Blocked(s, o, j) == Blocked(t, o, j)
    {
      BlockedAfterAccept(s, t, o, a, j);
    }
    KeptByView(s, t, o);
  }

  lemma AcceptKeeps(s: State, a: nat)
    requires Invariant(s) && Ready(s, a)
    ensures Invariant(RecordAccepted(s, a, s.rows[a].m.base + 1))
  {
    var t := RecordAccepted(s, a, s.rows[a].m.base + 1);
    ReadyIsFirst(s, a);
    OpsKept(s, t);
    var own := s.rows[a].m.obj;
    assert t.rows == SetStatus(s, a, Accepted).rows && t.met == s.met;
    assert forall o :: Baseline(t, o) == Baseline(s, o) + (if o == own then 1 else 0);
    hide RecordAccepted, SetStatus, Ready, Invariant, Baseline;
    forall o
      ensures ObjectOk(t, o)
    {
      if o == own {
        AcceptKeepsOwn(s, t, o, a);
      } else {
        AcceptKeepsOther(s, t, o, a);
      }
    }
    hide ObjectOk, WellFormed;
    IntoInvariant(t);
  }

  lemma IntoInvariant(t: State)
    requires WellFormed(t) && forall o :: ObjectOk(t, o)
    ensures Invariant(t)
  {
  }

  // ---------------------------------------------------------------- refused results

  lemma RefusedOps(s: State, t: State, a: nat, status: Status)
    requires WellFormed(s) && a < |s.rows| && Queued(s.rows[a].status) && status in {Conflict, ReplayMismatch}
             && t == SetStatus(s, a, status)
    ensures SameOps(s, t) && WellFormed(t) && Stuck(t, a)
    ensures forall j: nat :: Unmet(s, j) == Unmet(t, j)
    ensures forall j: nat :: j != a ==> Stuck(s, j) == Stuck(t, j)
    ensures forall j: nat :: j != a ==> StuckOf(s, s.rows[a].m.obj, j) == StuckOf(t, s.rows[a].m.obj, j)
  {
    QueuedIsUnmet(s, a);
    OpsKept(s, t);
  }

  lemma RefuseKeepsOther(s: State, t: State, a: nat, status: Status, o: Uuid)
    requires Invariant(s) && a < |s.rows| && Queued(s.rows[a].status) && status in {Conflict, ReplayMismatch}
             && t == SetStatus(s, a, status)
    requires s.rows[a].m.obj != o
    ensures ObjectOk(t, o)
  {
    RefusedOps(s, t, a, status);
    assert forall j: nat :: QueuedOf(s, o, j) == QueuedOf(t, o, j);
    assert SameWaits(s, t, o);
    hide *;
    ViewByWaits(s, t, o);
    FromInvariant(s, o);
    KeptByView(s, t, o);
  }

  lemma FromInvariant(s: State, o: Uuid)
    requires Invariant(s)
    ensures WellFormed(s) && ObjectOk(s, o)
  {
  }

  lemma BlockedUpTo(s: State, t: State, a: nat, status: Status, o: Uuid, i: nat)
    requires WellFormed(s) && a < |s.rows| && Queued(s.rows[a].status) && status in {Conflict, ReplayMismatch}
             && t == SetStatus(s, a, status)
    requires s.rows[a].m.obj == o
    ensures Blocked(s, o, i) ==> Blocked(t, o, i)
    ensures i <= a && Blocked(t, o, i) ==> Blocked(s, o, i)
  {
    RefusedOps(s, t, a, status);
    assert forall j: nat :: StuckOf(s, o, j) ==> StuckOf(t, o, j);
    hide Unmet, Stuck, StuckOf, Blocked, WellFormed, SetStatus;
    if Blocked(s, o, i) {
      BlockedCarries(s, t, o, i);
    }
    if i <= a && Blocked(t, o, i) {
      BlockedCarries(t, s, o, i);
    }
  }

  /** Every later queued row of the object is now blocked. */
  lemma BlockedAfterRefusal(s: State, t: State, a: nat, status: Status, o: Uuid, i: nat)
    requires Invariant(s) && a < i < |s.rows| && Queued(s.rows[a].status) && status in {Conflict, ReplayMismatch}
             && t == SetStatus(s, a, status)
    requires s.rows[a].m.obj == o && QueuedOf(s, o, i)
    ensures Blocked(t, o, i)
  {
    RefusedOps(s, t, a, status);
    BlockedUpTo(s, t, a, status, o, i);
    if !Blocked(s, o, i) {
      FreeBelow(s, o, i);
      DepSame(s, t);
      var p := (x: nat) => x == a || Blocked(t, o, x);
      forall x, y | Dep(s, x, y) && QueuedOf(s, o, y) && p(y)
        ensures p(x)
      {
        QueuedIsUnmet(s, y);
        assert Dep(t, x, y);
      }
      Descend(s, o, a, i, p);
    }
  }

  lemma RefusedQueue(s: State, t: State, a: nat, status: Status, o: Uuid)
    requires a < |s.rows| && Queued(s.rows[a].status) && status in {Conflict, ReplayMismatch}
             && t == SetStatus(s, a, status)
    requires s.rows[a].m.obj == o
    ensures Baseline(s, o) == Baseline(t, o)
    ensures forall j: nat :: QueuedOf(t, o, j) == (j != a && QueuedOf(s, o, j))
    ensures forall n: nat :: Count(t, o, n) == Count(s, o, n) - (if a < n then 1 else 0)
  {
    assert QueuedOf(s, o, a) && forall j: nat :: QueuedOf(t, o, j) == (j != a && QueuedOf(s, o, j));
    hide QueuedOf, SetStatus;
    forall n: nat
      ensures Count(t, o, n) == Count(s, o, n) - (if a < n then 1 else 0)
    {
      CountWithout(s, t, o, a, n);
    }
  }

  lemma RefuseKeepsOwn(s: State, t: State, a: nat, status: Status, o: Uuid)
    requires Invariant(s) && a < |s.rows| && Queued(s.rows[a].status) && status in {Conflict, ReplayMismatch}
             && t == SetStatus(s, a, status)
    requires s.rows[a].m.obj == o
    ensures ObjectOk(t, o)
  {
    RefusedOps(s, t, a, status);
    FromInvariant(s, o);
    DepSame(s, t);
    RefusedQueue(s, t, a, status, o);
    assert forall j: nat :: QueuedOf(s, o, j) ==> j < |s.rows|;
    hide Blocked, QueuedOf, Count, Baseline, Referenced, Invariant, Dep, SetStatus, WellFormed, Stuck, StuckOf, Unmet,
         Linked;
    forall i: nat | QueuedOf(t, o, i)
      ensures if a < i then Blocked(t, o, i) else Blocked(t, o, i) == Blocked(s, o, i)
    {
      if a < i { BlockedAfterRefusal(s, t, a, status, o, i); } else { BlockedUpTo(s, t, a, status, o, i); }
    }
    forall i | 0 <= i < |t.rows| && QueuedOf(t, o, i) && !Blocked(t, o, i)
      ensures Linked(t, o, i)
    {
      RefuseLinked(s, t, o, a, i);
    }
    forall j | 0 <= j < |t.rows| && QueuedOf(t, o, j) && Count(t, o, j) + 1 < Count(t, o, |t.rows|)
      ensures Referenced(t, j)
    {
      assert Referenced(s, j);
    }
  }

  lemma RefuseLinked(s: State, t: State, o: Uuid, a: nat, i: nat)
    requires SameOps(s, t) && Linked(s, o, i) && i <= a && Baseline(s, o) == Baseline(t, o)
    requires forall j: nat :: QueuedOf(t, o, j) == (j != a && QueuedOf(s, o, j))
    requires forall n: nat :: Count(t, o, n) == Count(s, o, n) - (if a < n then 1 else 0)
    ensures Linked(t, o, i)
  {
    DepSame(s, t);
    hide QueuedOf, Count, Baseline, Dep;
    forall j | 0 <= j < i && Before(t, o, j, i)
      ensures Dep(t, i, j)
    {
      assert Before(s, o, j, i);
    }
  }

  lemma RefuseKeeps(s: State, a: nat, status: Status)
    requires Invariant(s) && a < |s.rows| && Queued(s.rows[a].status) && status in {Conflict, ReplayMismatch}
    ensures Invariant(SetStatus(s, a, status))
  {
    var t := SetStatus(s, a, status);
    FromInvariant(s, 0);
    RefusedOps(s, t, a, status);
    hide *;
    forall o
      ensures ObjectOk(t, o)
    {
      if o == s.rows[a].m.obj {
        RefuseKeepsOwn(s, t, a, status, o);
      } else {
        RefuseKeepsOther(s, t, a, status, o);
      }
    }
    IntoInvariant(t);
  }

  lemma RecordKeeps(s: State, op: Uuid, answer: Answer)
    requires Invariant(s)
    ensures Invariant(Record(s, op, answer))
  {
    hide Invariant, RecordAccepted, SetStatus, Ready;
    var i := IndexOf(s, op, |s.rows|);
    if i < |s.rows| && Queued(s.rows[i].status) {
      if answer == Rejected {
        RefuseKeeps(s, i, Conflict);
      } else if Ready(s, i) && answer.revision == s.rows[i].m.base + 1 {
        AcceptKeeps(s, i);
      }
    }
  }

  lemma MismatchKeeps(s: State, op: Uuid)
    requires Invariant(s)
    ensures Invariant(Mismatch(s, op))
  {
    hide Invariant, SetStatus;
    var i := IndexOf(s, op, |s.rows|);
    if i < |s.rows| && Queued(s.rows[i].status) {
      RefuseKeeps(s, i, ReplayMismatch);
    }
  }
}
