/** No queued operation waits for a superseded one, so a store without conflicts always has something to send. */
module OutboxProgress {
  import opened Ids
  import opened Outbox
  import opened OutboxChain
  import opened OutboxEnqueue
  import opened OutboxBatch

  /** No queued operation depends on a superseded one. */
  predicate NoneStranded(s: State) {
    forall i, j :: 0 <= j < i < |s.rows| && Dep(s, i, j) && Queued(s.rows[i].status) ==> s.rows[j].status != Superseded
  }

  /** Every dependency of m is active or final, but not superseded. */
  predicate DepsLive(s: State, m: Mutation) {
    forall j :: 0 <= j < |s.rows| && s.rows[j].m.op in Deps(m) ==> s.rows[j].status != Superseded
  }

  lemma StatusStrandsNobody(s: State, i: nat, status: Status)
    requires NoneStranded(s) && i < |s.rows| && status != Superseded && (Queued(status) ==> Queued(s.rows[i].status))
    ensures NoneStranded(SetStatus(s, i, status))
  {
    var t := SetStatus(s, i, status);
    assert forall x: nat, y: nat :: Dep(t, x, y) ==> Dep(s, x, y);
  }

  lemma SupersedeStrandsNobody(s: State, c: Uuid)
    requires NoneStranded(s)
    ensures NoneStranded(SupersedeDependents(s, c))
  {
    var t := SupersedeDependents(s, c);
    forall i, j | 0 <= j < i < |t.rows| && Dep(t, i, j) && Queued(t.rows[i].status)
      ensures t.rows[j].status != Superseded
    {
      assert Dep(s, i, j);
      if Doomed(s, c, j) {
        DoomedPasses(s, c, i, j);
      }
    }
  }

  lemma CoalesceStrandsNobody(s: State, coalesced: set<Uuid>, m: Mutation)
    requires NoneStranded(s)
    ensures NoneStranded(Prepared(s, coalesced, m))
    ensures DepsLive(Prepared(s, coalesced, m), m) == DepsLive(s, m)
  {
    var t := Prepared(s, coalesced, m);
    forall i, j | 0 <= j < i < |t.rows| && Dep(t, i, j) && Queued(t.rows[i].status)
      ensures t.rows[j].status != Superseded
    {
      assert Dep(s, i, j) && Referenced(s, j);
    }
    assert forall j :: 0 <= j < |s.rows| && s.rows[j].m.op in Deps(m) ==> t.rows[j] == s.rows[j];
  }

  lemma AppendStrands(s: State, m: Mutation)
    requires NoneStranded(s)
    ensures NoneStranded(Appended(s, m)) <==> DepsLive(s, m)
  {
    var t, n := Appended(s, m), |s.rows|;
    AppendedRows(s, m);
    hide Appended, Deps;
    if DepsLive(s, m) {
      forall i, j | 0 <= j < i < |t.rows| && Dep(t, i, j) && Queued(t.rows[i].status)
        ensures t.rows[j].status != Superseded
      {
        if i < n { assert Dep(s, i, j); }
      }
    } else {
      var j :| 0 <= j < n && s.rows[j].m.op in Deps(m) && s.rows[j].status == Superseded;
      assert Dep(t, n, j);
    }
  }

  /** Appending strands somebody exactly when the new operation names a superseded one. */
  lemma StepStrands(b: Batch, m: Mutation)
    requires b.Running? && NoneStranded(b.s) && EnqueueOne(b, m).Running? && !Redundant(b.s, m)
    ensures NoneStranded(EnqueueOne(b, m).s) <==> DepsLive(b.s, m)
  {
    StepIsAppend(b, m);
    CoalesceStrandsNobody(b.s, b.coalesced, m);
    AppendStrands(Prepared(b.s, b.coalesced, m), m);
  }

  /** Each operation of the batch finds its dependencies live when its turn comes. */
  predicate LiveSteps(s: State, ms: seq<Mutation>) {
    ms == [] ||
    (LiveSteps(s, ms[..|ms| - 1]) &&
     var b, m := EnqueueAll(Running(s, {}), ms[..|ms| - 1]), ms[|ms| - 1];
     (b.Running? && !Redundant(b.s, m) ==> DepsLive(b.s, m)))
  }

  /** A row appended by the batch waits for a superseded one, and nothing later in the batch touches either. */
  ghost predicate StrandedFor(b: Batch, o: Uuid) {
    b.Running? && o in b.coalesced
        && exists i, j :: 0 <= j < i < |b.s.rows| && QueuedOf(b.s, o, i) && Dep(b.s, i, j)
            && b.s.rows[j].status == Superseded
  }

  lemma StrandedStays(b: Batch, m: Mutation, o: Uuid)
    requires StrandedFor(b, o) && EnqueueOne(b, m).Running? && WellFormed(b.s)
    ensures StrandedFor(EnqueueOne(b, m), o)
  {
    if !Redundant(b.s, m) {
      var i, j :| 0 <= j < i < |b.s.rows| && QueuedOf(b.s, o, i) && Dep(b.s, i, j) && b.s.rows[j].status == Superseded;
      StepRows(b, m);
      SupersededStays(b, m, j);
      hide EnqueueOne;
      assert Dep(EnqueueOne(b, m).s, i, j) && QueuedOf(EnqueueOne(b, m).s, o, i);
    }
  }

  lemma SupersededStays(b: Batch, m: Mutation, j: nat)
    requires b.Running? && EnqueueOne(b, m).Running? && j < |b.s.rows| && b.s.rows[j].status == Superseded
             && !Redundant(b.s, m)
    ensures j < |EnqueueOne(b, m).s.rows| && EnqueueOne(b, m).s.rows[j].status == Superseded
  {
    StepIsAppend(b, m);
  }

  lemma StrandedAppears(b: Batch, m: Mutation)
    requires b.Running? && WellFormed(b.s) && EnqueueOne(b, m).Running? && !Redundant(b.s, m) && !DepsLive(b.s, m)
    ensures StrandedFor(EnqueueOne(b, m), m.obj)
  {
    var j :| 0 <= j < |b.s.rows| && b.s.rows[j].m.op in Deps(m) && b.s.rows[j].status == Superseded;
    StepRows(b, m);
    SupersededStays(b, m, j);
    var t := EnqueueOne(b, m).s;
    hide EnqueueOne;
    assert QueuedOf(t, m.obj, |b.s.rows|) && Dep(t, |b.s.rows|, j);
  }

  lemma {:induction false} BatchStrands(s: State, ms: seq<Mutation>)
    requires WellFormed(s) && NoneStranded(s) && EnqueueAll(Running(s, {}), ms).Running?
    ensures LiveSteps(s, ms) ==> NoneStranded(EnqueueAll(Running(s, {}), ms).s)
    ensures !LiveSteps(s, ms) ==> exists o :: StrandedFor(EnqueueAll(Running(s, {}), ms), o)
  {
    if ms != [] {
      var init, m := ms[..|ms| - 1], ms[|ms| - 1];
      var b := EnqueueAll(Running(s, {}), init);
      RunningPrefix(s, ms);
      TouchAll(s, init, 0);
      TouchedFacts(s, init, b, 0);
      BatchStrands(s, init);
      hide EnqueueAll, EnqueueOne, WellFormed, NoneStranded, StrandedFor, Redundant, DepsLive;
      if !LiveSteps(s, init) {
        var o :| StrandedFor(b, o);
        StrandedStays(b, m, o);
      } else if !Redundant(b.s, m) {
        StepStrands(b, m);
        if !DepsLive(b.s, m) {
          StrandedAppears(b, m);
        }
      } else {
        RedundantSkips(b, m);
      }
    }
  }

  lemma RedundantSkips(b: Batch, m: Mutation)
    requires b.Running? && Redundant(b.s, m) && EnqueueOne(b, m).Running?
    ensures EnqueueOne(b, m) == b
  {
  }

  /** An accepted batch leaves nobody waiting for a superseded operation exactly when every operation it appends finds
      its dependencies live. */
  lemma StepsStrandIff(s: State, ms: seq<Mutation>)
    requires WellFormed(s) && NoneStranded(s) && EnqueueAll(Running(s, {}), ms).Running?
    ensures NoneStranded(EnqueueAll(Running(s, {}), ms).s) <==> LiveSteps(s, ms)
  {
    BatchStrands(s, ms);
    if !LiveSteps(s, ms) {
      var b := EnqueueAll(Running(s, {}), ms);
      var o :| StrandedFor(b, o);
      var i, j :| 0 <= j < i < |b.s.rows| && QueuedOf(b.s, o, i) && Dep(b.s, i, j) && b.s.rows[j].status == Superseded;
    }
  }

  // ---------------------------------------------------------------- something to send

  function FirstQueued(s: State, n: nat): (i: nat)
    requires n <= |s.rows|
    ensures i < n ==> Queued(s.rows[i].status) && forall j :: 0 <= j < i ==> !Queued(s.rows[j].status)
    ensures i >= n ==> i == |s.rows| && forall j :: 0 <= j < n ==> !Queued(s.rows[j].status)
  {
    if n == 0 then |s.rows|
    else if FirstQueued(s, n - 1) < n - 1 then FirstQueued(s, n - 1)
    else if Queued(s.rows[n - 1].status) then n - 1
    else |s.rows|
  }

  /** Without conflicts the first queued operation is always ready. */
  lemma FirstIsReady(s: State)
    requires WellFormed(s) && NoneStuck(s) && NoneStranded(s) && FirstQueued(s, |s.rows|) < |s.rows|
    ensures Ready(s, FirstQueued(s, |s.rows|))
  {
    var i := FirstQueued(s, |s.rows|);
    forall j | 0 <= j < i && Dep(s, i, j)
      ensures !Unmet(s, j)
    {
      assert !Stuck(s, j) && s.rows[j].status != Superseded && !Queued(s.rows[j].status);
    }
  }

  function QueueLength(s: State, n: nat): nat
    requires n <= |s.rows|
  {
    if n == 0 then 0 else QueueLength(s, n - 1) + (if Queued(s.rows[n - 1].status) then 1 else 0)
  }

  lemma {:induction false} LengthWithout(s: State, i: nat, status: Status, n: nat)
    requires i < |s.rows| && n <= |s.rows| && Queued(s.rows[i].status)
    ensures QueueLength(SetStatus(s, i, status), n) == QueueLength(s, n) - (if i < n && !Queued(status) then 1 else 0)
  {
    if n > 0 {
      LengthWithout(s, i, status, n - 1);
    }
  }

  lemma {:induction false} LengthPositive(s: State, n: nat)
    requires n <= |s.rows|
    ensures QueueLength(s, n) > 0 <==> FirstQueued(s, n) < n
  {
    if n > 0 {
      LengthPositive(s, n - 1);
    }
  }

  // ---------------------------------------------------------------- the server and the drain

  function Head(heads: map<Uuid, nat>, o: Uuid): nat {
    if o in heads then heads[o] else 0
  }

  /** The server holds the revisions the client last saw. */
  ghost predicate InSync(s: State, heads: map<Uuid, nat>) {
    forall o :: Head(heads, o) == Baseline(s, o)
  }

  /** A server answer: accepted exactly when the operation's base is the object's head. */
  function Judge(heads: map<Uuid, nat>, m: Mutation): Answer {
    if Head(heads, m.obj) == m.base then AcceptedAt(m.base + 1) else Rejected
  }

  function Advance(heads: map<Uuid, nat>, m: Mutation): map<Uuid, nat> {
    if Head(heads, m.obj) == m.base then heads[m.obj := m.base + 1] else heads
  }

  /** What the drain relies on. */
  ghost predicate Sendable(s: State, heads: map<Uuid, nat>) {
    Invariant(s) && NoneStuck(s) && NoneStranded(s) && InSync(s, heads) && forall o :: Projected(s, o) <= MAX_INT64
  }

  /** One round of the drain on the row at index i: mark it, send it, record the answer. */
  function Round(s: State, heads: map<Uuid, nat>, i: nat): State
    requires i < |s.rows|
  {
    Record(Attempt(s, s.rows[i].m.op), s.rows[i].m.op, Judge(heads, s.rows[i].m))
  }

  lemma IndexIs(s: State, i: nat, n: nat)
    requires WellFormed(s) && i < n <= |s.rows|
    ensures IndexOf(s, s.rows[i].m.op, n) == i
  {
    var k := IndexOf(s, s.rows[i].m.op, n);
    assert HasOp(s, n, s.rows[i].m.op);
  }

  lemma ReadyBase(s: State, heads: map<Uuid, nat>, i: nat)
    requires Sendable(s, heads) && Ready(s, i)
    ensures s.rows[i].m.base == Head(heads, s.rows[i].m.obj) && s.rows[i].m.base + 1 <= MAX_INT64
  {
    var o := s.rows[i].m.obj;
    ReadyIsFirst(s, i);
    assert QueuedOf(s, o, i);
    CountMonotone(s, o, i, |s.rows|);
    assert Projected(s, o) <= MAX_INT64;
  }

  /** An accepted answer to a ready operation is recorded. */
  lemma RoundRecords(s: State, heads: map<Uuid, nat>, i: nat)
    requires WellFormed(s) && Ready(s, i) && Judge(heads, s.rows[i].m) != Rejected && s.rows[i].m.base + 1 <= MAX_INT64
    ensures Round(s, heads, i) == RecordAccepted(s, i, s.rows[i].m.base + 1)
    ensures Round(s, heads, i).rows == SetStatus(s, i, Accepted).rows
    ensures Recordable(Attempt(s, s.rows[i].m.op), s.rows[i].m.op, Judge(heads, s.rows[i].m))
  {
    IndexIs(s, i, |s.rows|);
    var t := Attempt(s, s.rows[i].m.op);
    OpsKept(s, t);
    IndexIs(t, i, |t.rows|);
    hide WellFormed;
    assert forall j: nat :: Unmet(t, j) == Unmet(s, j);
    assert forall x: nat, y: nat :: Dep(t, x, y) ==> Dep(s, x, y);
    assert Ready(t, i);
    assert RecordAccepted(t, i, s.rows[i].m.base + 1).rows == RecordAccepted(s, i, s.rows[i].m.base + 1).rows;
  }

  lemma RoundAccepts(s: State, heads: map<Uuid, nat>, i: nat)
    requires Sendable(s, heads) && Ready(s, i)
    ensures Judge(heads, s.rows[i].m) == AcceptedAt(s.rows[i].m.base + 1)
    ensures Round(s, heads, i).rows == SetStatus(s, i, Accepted).rows
    ensures Round(s, heads, i) == RecordAccepted(s, i, s.rows[i].m.base + 1)
    ensures Recordable(Attempt(s, s.rows[i].m.op), s.rows[i].m.op, Judge(heads, s.rows[i].m))
  {
    FromInvariant(s, 0);
    ReadyBase(s, heads, i);
    RoundRecords(s, heads, i);
  }

  /** A recorded round takes one operation out of the queue. */
  lemma RoundShrinks(s: State, heads: map<Uuid, nat>, i: nat)
    requires WellFormed(s) && Ready(s, i) && Judge(heads, s.rows[i].m) != Rejected && s.rows[i].m.base + 1 <= MAX_INT64
    ensures |Round(s, heads, i).rows| == |s.rows|
            && QueueLength(Round(s, heads, i), |s.rows|) < QueueLength(s, |s.rows|)
  {
    RoundRecords(s, heads, i);
    LengthWithout(s, i, Accepted, |s.rows|);
    LengthByRows(Round(s, heads, i), SetStatus(s, i, Accepted), |s.rows|);
  }

  lemma StatusWellFormed(s: State, i: nat, status: Status, baselines: map<Uuid, nat>)
    requires WellFormed(s) && i < |s.rows| && Queued(s.rows[i].status)
    ensures WellFormed(SetStatus(s, i, status).(baselines := baselines))
  {
    OpsKept(s, SetStatus(s, i, status).(baselines := baselines));
  }

  lemma RecordWellFormed(s: State, op: Uuid, answer: Answer)
    requires WellFormed(s)
    ensures WellFormed(Record(s, op, answer)) && WellFormed(Attempt(s, op)) && WellFormed(Mismatch(s, op))
  {
    hide WellFormed, IndexOf;
    var i := IndexOf(s, op, |s.rows|);
    if i < |s.rows| && Queued(s.rows[i].status) {
      StatusWellFormed(s, i, Conflict, s.baselines);
      StatusWellFormed(s, i, Attempted, s.baselines);
      StatusWellFormed(s, i, ReplayMismatch, s.baselines);
      if answer.AcceptedAt? {
        StatusWellFormed(s, i, Accepted, RecordAccepted(s, i, answer.revision).baselines);
      }
    }
  }

  lemma RoundInvariant(s: State, heads: map<Uuid, nat>, i: nat)
    requires i < |s.rows|
    ensures WellFormed(s) ==> WellFormed(Round(s, heads, i))
    ensures Invariant(s) ==> Invariant(Round(s, heads, i))
  {
    hide *;
    var op, answer := s.rows[i].m.op, Judge(heads, s.rows[i].m);
    assert Round(s, heads, i) == Record(Attempt(s, op), op, answer) by { RoundIs(s, heads, i); }
    if WellFormed(s) {
      RecordWellFormed(s, op, answer);
      RecordWellFormed(Attempt(s, op), op, answer);
    }
    if Invariant(s) {
      AttemptKeeps(s, op);
      RecordKeeps(Attempt(s, op), op, answer);
    }
  }

  lemma RoundIs(s: State, heads: map<Uuid, nat>, i: nat)
    requires i < |s.rows|
    ensures Round(s, heads, i) == Record(Attempt(s, s.rows[i].m.op), s.rows[i].m.op, Judge(heads, s.rows[i].m))
  {
  }

  lemma ProjectionKept(s: State, heads: map<Uuid, nat>, i: nat, o: Uuid)
    requires Sendable(s, heads) && Ready(s, i)
    ensures Projected(Round(s, heads, i), o) == Projected(s, o)
    ensures Baseline(Round(s, heads, i), o) == Head(Advance(heads, s.rows[i].m), o)
  {
    RoundAccepts(s, heads, i);
    ReadyBase(s, heads, i);
    ReadyIsFirst(s, i);
    var t := Round(s, heads, i);
    hide Round, Invariant, Ready;
    assert Head(heads, o) == Baseline(s, o);
    if o == s.rows[i].m.obj {
      assert QueuedOf(s, o, i) && !QueuedOf(t, o, i);
      CountWithout(s, t, o, i, |s.rows|);
    } else {
      CountSame(s, t, o, |s.rows|);
    }
  }

  /** A round is accepted, shortens the queue by one, and changes no projection. */
  lemma RoundKeeps(s: State, heads: map<Uuid, nat>, i: nat)
    requires Sendable(s, heads) && Ready(s, i)
    ensures Sendable(Round(s, heads, i), Advance(heads, s.rows[i].m)) && |Round(s, heads, i).rows| == |s.rows|
    ensures QueueLength(Round(s, heads, i), |s.rows|) == QueueLength(s, |s.rows|) - 1
    ensures forall o :: Projected(Round(s, heads, i), o) == Projected(s, o)
  {
    RoundAccepts(s, heads, i);
    AcceptKeeps(s, i);
    StatusStrandsNobody(s, i, Accepted);
    LengthWithout(s, i, Accepted, |s.rows|);
    LengthByRows(Round(s, heads, i), SetStatus(s, i, Accepted), |s.rows|);
    AcceptedNotStuck(s, Round(s, heads, i), i);
    forall o
      ensures Projected(Round(s, heads, i), o) == Projected(s, o)
              && Baseline(Round(s, heads, i), o) == Head(Advance(heads, s.rows[i].m), o)
    {
      ProjectionKept(s, heads, i, o);
    }
    hide Round, Invariant, Projected, Baseline, Advance, QueueLength, Head, Ready;
  }

  lemma AcceptedNotStuck(s: State, t: State, i: nat)
    requires i < |s.rows| && NoneStuck(s) && NoneStranded(SetStatus(s, i, Accepted)) && t.met == s.met
             && t.rows == SetStatus(s, i, Accepted).rows
    ensures NoneStuck(t) && NoneStranded(t)
  {
    assert forall j: nat :: Stuck(t, j) ==> Stuck(s, j);
    assert forall x: nat, y: nat :: Dep(t, x, y) == Dep(SetStatus(s, i, Accepted), x, y);
  }

  lemma {:induction false} LengthByRows(s: State, t: State, n: nat)
    requires s.rows == t.rows && n <= |s.rows|
    ensures QueueLength(s, n) == QueueLength(t, n)
  {
    if n > 0 {
      LengthByRows(s, t, n - 1);
    }
  }

  lemma {:induction false} EmptyCount(s: State, o: Uuid, n: nat)
    requires n <= |s.rows| && QueueLength(s, n) == 0
    ensures Count(s, o, n) == 0
  {
    if n > 0 {
      EmptyCount(s, o, n - 1);
    }
  }
}
