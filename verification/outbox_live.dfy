/** Which accepted batches leave nobody waiting for a superseded operation, read off the store and the batch before the
    call. */
module OutboxLive {
  import opened Ids
  import opened Naming
  import opened Optional
  import opened Outbox
  import opened OutboxEnqueue
  import opened OutboxBatch
  import opened OutboxProgress

  // ---------------------------------------------------------------- what a batch skips and supersedes

  /** A folder move into the recovered-conflicts folder whose recovery has queued a create for it. */
  predicate Recovers(s: State, m: Mutation) {
    && m.kind == Move && m.otype == Folder && m.parent == Some(CONFLICT_RECOVERED) && m.base == 1
    && m.obj in s.recoveries && s.recoveries[m.obj].completed && s.recoveries[m.obj].name == m.name
    && s.recoveries[m.obj].newOp in Deps(m)
  }

  /** The row is that create, not yet refused or superseded. */
  predicate CreatesFor(s: State, m: Mutation, row: Row)
    requires m.obj in s.recoveries
  {
    && row.m.op == s.recoveries[m.obj].newOp && row.m.obj == m.obj && row.m.kind == Create
    && (row.status == Pending || row.status == Attempted || row.status == Accepted)
  }

  /** The operation is dropped: the create is queued, or comes earlier in the batch, and was not superseded by the
      batch. */
  predicate Skips(s: State, ms: seq<Mutation>, k: nat)
    requires k < |ms|
    decreases k, 0
  {
    && Recovers(s, ms[k])
    && ((exists j :: 0 <= j < |s.rows| && CreatesFor(s, ms[k], s.rows[j])
          && !exists i :: 0 <= i < k && Takes(s, ms, i, j))
        || exists i :: 0 <= i < k && CreatesFor(s, ms[k], Row(ms[i], Pending)))
  }

  /** The operation is the first of its object that is not dropped, and supersedes a row that was queued before the
      batch: pending, of its object, and named by nothing queued before, nothing earlier in the batch and not by
      itself. */
  predicate Takes(s: State, ms: seq<Mutation>, i: nat, j: nat)
    requires i < |ms|
    decreases i, 1
  {
    && j < |s.rows| && s.rows[j].m.obj == ms[i].obj && s.rows[j].status == Pending && !Referenced(s, j)
    && !Skips(s, ms, i) && (forall h :: 0 <= h < i && ms[h].obj == ms[i].obj ==> Skips(s, ms, h))
    && s.rows[j].m.op !in Deps(ms[i]) && forall h :: 0 <= h < i && !Skips(s, ms, h) ==> s.rows[j].m.op !in Deps(ms[h])
  }

  /** What the operation waits for was not superseded before the batch, nor by anything earlier in it. */
  predicate WaitsLive(s: State, ms: seq<Mutation>, k: nat)
    requires k < |ms|
  {
    forall j :: 0 <= j < |s.rows| && s.rows[j].m.op in Deps(ms[k]) ==>
      s.rows[j].status != Superseded && !TakenBefore(s, ms, k, j)
  }

  predicate TakenBefore(s: State, ms: seq<Mutation>, n: nat, j: nat)
    requires n <= |ms|
  {
    exists i :: 0 <= i < n && Takes(s, ms, i, j)
  }

  /** No operation of the batch that is not dropped waits for a superseded one. */
  predicate LiveBatch(s: State, ms: seq<Mutation>) {
    forall k :: 0 <= k < |ms| && !Skips(s, ms, k) ==> WaitsLive(s, ms, k)
  }

  // ---------------------------------------------------------------- the outcome of a batch, row by row

  /** The rows that were there: the same operations, superseded if something took them. */
  ghost predicate OldRows(s: State, ms: seq<Mutation>, n: nat, t: State)
    requires n <= |ms|
  {
    && |s.rows| <= |t.rows| && t.recoveries == s.recoveries
    && forall j :: 0 <= j < |s.rows| ==>
         t.rows[j] == if TakenBefore(s, ms, n, j) then s.rows[j].(status := Superseded) else s.rows[j]
  }

  /** The new rows: what was not dropped, all pending. */
  ghost predicate NewRows(s: State, ms: seq<Mutation>, n: nat, t: State)
    requires n <= |ms| && |s.rows| <= |t.rows|
  {
    && (forall x :: |s.rows| <= x < |t.rows| ==> t.rows[x].status == Pending && Appends(s, ms, n, t.rows[x].m))
    && forall k :: 0 <= k < n && !Skips(s, ms, k) ==> RowOf(s, t, ms[k])
  }

  predicate Appends(s: State, ms: seq<Mutation>, n: nat, m: Mutation)
    requires n <= |ms|
  {
    exists k :: 0 <= k < n && !Skips(s, ms, k) && ms[k] == m
  }

  predicate RowOf(s: State, t: State, m: Mutation) {
    exists x :: |s.rows| <= x < |t.rows| && t.rows[x].m == m
  }

  predicate Begun(s: State, ms: seq<Mutation>, n: nat, o: Uuid)
    requires n <= |ms|
  {
    exists k :: 0 <= k < n && !Skips(s, ms, k) && ms[k].obj == o
  }

  /** What the first n operations of the batch have done. */
  ghost predicate Outcome(s: State, ms: seq<Mutation>, n: nat, b: Batch)
    requires n <= |ms|
  {
    b.Running? && OldRows(s, ms, n, b.s) && NewRows(s, ms, n, b.s)
        && forall o :: o in b.coalesced <==> Begun(s, ms, n, o)
  }

  lemma RedundantIs(s: State, m: Mutation)
    ensures Redundant(s, m) <==> Recovers(s, m) && exists j :: 0 <= j < |s.rows| && CreatesFor(s, m, s.rows[j])
  {
    if Redundant(s, m) {
      var j :| 0 <= j < |s.rows| && s.rows[j].m.op == s.recoveries[m.obj].newOp && s.rows[j].m.obj == m.obj
          && s.rows[j].m.kind == Create
        && s.rows[j].status in {Pending, Attempted, Accepted};
      assert CreatesFor(s, m, s.rows[j]);
    }
    if j :| Recovers(s, m) && 0 <= j < |s.rows| && CreatesFor(s, m, s.rows[j]) {
      assert s.rows[j].m.op == s.recoveries[m.obj].newOp;
    }
  }

  lemma CreateNotSkipped(s: State, ms: seq<Mutation>, i: nat)
    requires i < |ms| && ms[i].kind == Create
    ensures !Skips(s, ms, i)
  {
  }

  /** An operation is dropped exactly when its description says so. */
  lemma SkipsIs(s: State, ms: seq<Mutation>, n: nat, b: Batch)
    requires n < |ms| && Outcome(s, ms, n, b)
    ensures Skips(s, ms, n) <==> Redundant(b.s, ms[n])
  {
    RedundantIs(b.s, ms[n]);
    var t, m := b.s, ms[n];
    hide Redundant, Takes, Deps;
    assert Recovers(s, m) <==> Recovers(t, m);
    if Recovers(s, m) {
      if Skips(s, ms, n) {
        SkipFound(s, ms, n, b);
      } else if x :| 0 <= x < |t.rows| && CreatesFor(t, m, t.rows[x]) {
        SkipMissing(s, ms, n, b, x);
      }
    }
  }

  lemma SkipFound(s: State, ms: seq<Mutation>, n: nat, b: Batch)
    requires n < |ms| && Outcome(s, ms, n, b) && Skips(s, ms, n)
    ensures exists x :: 0 <= x < |b.s.rows| && CreatesFor(b.s, ms[n], b.s.rows[x])
  {
    hide Takes, Deps, Recovers;
    assert ms[n].obj in s.recoveries by { RecoversIn(s, ms[n]); }
    if j :| 0 <= j < |s.rows| && CreatesFor(s, ms[n], s.rows[j]) && !exists i :: 0 <= i < n && Takes(s, ms, i, j) {
      assert b.s.rows[j] == s.rows[j];
    } else {
      var i :| 0 <= i < n && CreatesFor(s, ms[n], Row(ms[i], Pending));
      CreateNotSkipped(s, ms, i);
      var x :| |s.rows| <= x < |b.s.rows| && b.s.rows[x].m == ms[i];
      assert b.s.rows[x] == Row(ms[i], Pending);
    }
  }

  lemma RecoversIn(s: State, m: Mutation)
    requires Recovers(s, m)
    ensures m.obj in s.recoveries
  {
  }

  lemma SkipMissing(s: State, ms: seq<Mutation>, n: nat, b: Batch, x: nat)
    requires n < |ms| && Outcome(s, ms, n, b) && Recovers(s, ms[n]) && x < |b.s.rows|
             && CreatesFor(b.s, ms[n], b.s.rows[x])
    ensures Skips(s, ms, n)
  {
    RecoversIn(s, ms[n]);
    hide Takes, Deps, Recovers;
    if x < |s.rows| {
      assert !TakenBefore(s, ms, n, x);
      assert CreatesFor(s, ms[n], s.rows[x]);
    } else {
      var k :| 0 <= k < n && !Skips(s, ms, k) && ms[k] == b.s.rows[x].m;
      assert CreatesFor(s, ms[n], Row(ms[k], Pending));
    }
  }

  // ---------------------------------------------------------------- one more operation

  lemma TakenNext(s: State, ms: seq<Mutation>, n: nat, j: nat)
    requires n < |ms|
    ensures TakenBefore(s, ms, n + 1, j) <==> TakenBefore(s, ms, n, j) || Takes(s, ms, n, j)
  {
    hide Takes;
  }

  lemma AppendsNext(s: State, ms: seq<Mutation>, n: nat, m: Mutation)
    requires n < |ms|
    ensures Appends(s, ms, n + 1, m) <==> Appends(s, ms, n, m) || (!Skips(s, ms, n) && ms[n] == m)
  {
    hide Skips;
  }

  lemma BegunNext(s: State, ms: seq<Mutation>, n: nat, o: Uuid)
    requires n < |ms|
    ensures Begun(s, ms, n + 1, o) <==> Begun(s, ms, n, o) || (!Skips(s, ms, n) && ms[n].obj == o)
  {
    hide Skips;
  }

  lemma SkippedTakesNone(s: State, ms: seq<Mutation>, n: nat, j: nat)
    requires n < |ms| && (Skips(s, ms, n) || Begun(s, ms, n, ms[n].obj))
    ensures !Takes(s, ms, n, j)
  {
    hide Skips;
  }

  lemma TakenBegun(s: State, ms: seq<Mutation>, n: nat, j: nat)
    requires n <= |ms| && TakenBefore(s, ms, n, j)
    ensures j < |s.rows| && Begun(s, ms, n, s.rows[j].m.obj)
  {
    hide Skips;
  }

  lemma SkipStep(s: State, ms: seq<Mutation>, n: nat, b: Batch)
    requires n < |ms| && Outcome(s, ms, n, b) && Skips(s, ms, n)
    ensures Outcome(s, ms, n + 1, b)
  {
    hide Skips, Takes, TakenBefore, Appends, Begun, RowOf;
    forall j
      ensures TakenBefore(s, ms, n + 1, j) <==> TakenBefore(s, ms, n, j)
    {
      TakenNext(s, ms, n, j);
      SkippedTakesNone(s, ms, n, j);
    }
    forall m
      ensures Appends(s, ms, n + 1, m) <==> Appends(s, ms, n, m)
    {
      AppendsNext(s, ms, n, m);
    }
    forall o
      ensures Begun(s, ms, n + 1, o) <==> Begun(s, ms, n, o)
    {
      BegunNext(s, ms, n, o);
    }
  }

  /** A row that was there before is referenced if it was, or if a new operation names it. */
  lemma ReferencedIs(s: State, ms: seq<Mutation>, n: nat, b: Batch, j: nat)
    requires n <= |ms| && Outcome(s, ms, n, b) && j < |s.rows|
    ensures Referenced(b.s, j)
            <==> Referenced(s, j) || exists h :: 0 <= h < n && !Skips(s, ms, h) && s.rows[j].m.op in Deps(ms[h])
  {
    var t := b.s;
    hide Skips, Takes, TakenBefore, Begun, Deps;
    if Referenced(t, j) {
      var i :| j < i < |t.rows| && Dep(t, i, j);
      if i < |s.rows| {
        assert Dep(s, i, j);
      } else {
        assert Appends(s, ms, n, t.rows[i].m);
      }
    }
    if i :| j < i < |s.rows| && Dep(s, i, j) {
      assert Dep(t, i, j);
    }
    if h :| 0 <= h < n && !Skips(s, ms, h) && s.rows[j].m.op in Deps(ms[h]) {
      assert RowOf(s, t, ms[h]);
      var x :| |s.rows| <= x < |t.rows| && t.rows[x].m == ms[h];
      assert Dep(t, x, j);
    }
  }

  /** The first operation of an object takes exactly the rows its description says. */
  lemma CoalescesIs(s: State, ms: seq<Mutation>, n: nat, b: Batch, j: nat)
    requires n < |ms| && Outcome(s, ms, n, b) && !Skips(s, ms, n) && !Begun(s, ms, n, ms[n].obj) && j < |s.rows|
    ensures Coalesces(b.s, ms[n], j) <==> Takes(s, ms, n, j)
  {
    ReferencedIs(s, ms, n, b, j);
    hide Skips, Deps, Referenced;
    if s.rows[j].m.obj == ms[n].obj && TakenBefore(s, ms, n, j) {
      TakenBegun(s, ms, n, j);
    }
    assert forall h :: 0 <= h < n && ms[h].obj == ms[n].obj ==> Skips(s, ms, h);
  }

  lemma NewNotCoalesced(s: State, ms: seq<Mutation>, n: nat, b: Batch, x: nat)
    requires n < |ms| && Outcome(s, ms, n, b) && !Begun(s, ms, n, ms[n].obj) && |s.rows| <= x < |b.s.rows|
    ensures !Coalesces(b.s, ms[n], x)
  {
    hide Skips, Deps, Referenced, Takes, TakenBefore;
    assert Appends(s, ms, n, b.s.rows[x].m);
  }

  lemma PreparedRows(s: State, ms: seq<Mutation>, n: nat, b: Batch)
    requires n < |ms| && Outcome(s, ms, n, b) && !Skips(s, ms, n)
    ensures var p := Prepared(b.s, b.coalesced, ms[n]);
      |p.rows| == |b.s.rows| && OldRows(s, ms, n + 1, p)
          && forall x :: |s.rows| <= x < |b.s.rows| ==> p.rows[x] == b.s.rows[x]
  {
    var p, m := Prepared(b.s, b.coalesced, ms[n]), ms[n];
    hide Skips, Takes, TakenBefore, Begun, NewRows;
    forall j | 0 <= j < |s.rows|
      ensures p.rows[j] == if TakenBefore(s, ms, n + 1, j) then s.rows[j].(status := Superseded) else s.rows[j]
    {
      TakenNext(s, ms, n, j);
      if m.obj in b.coalesced {
        SkippedTakesNone(s, ms, n, j);
      } else {
        CoalescesIs(s, ms, n, b, j);
      }
    }
    forall x | |s.rows| <= x < |b.s.rows|
      ensures p.rows[x] == b.s.rows[x]
    {
      if m.obj !in b.coalesced {
        NewNotCoalesced(s, ms, n, b, x);
      }
    }
  }

  lemma AppendStep(s: State, ms: seq<Mutation>, n: nat, b: Batch)
    requires n < |ms| && Outcome(s, ms, n, b) && !Skips(s, ms, n) && !Redundant(b.s, ms[n])
             && EnqueueOne(b, ms[n]).Running?
    ensures Outcome(s, ms, n + 1, EnqueueOne(b, ms[n]))
  {
    hide *;
    OutcomeIs(s, ms, n, b);
    PreparedRows(s, ms, n, b);
    AppendedIs(b, ms[n]);
    var c := EnqueueOne(b, ms[n]);
    OldRowsKept(s, ms, n + 1, Prepared(b.s, b.coalesced, ms[n]), c.s);
    NewRowsStep(s, ms, n, b.s, c.s);
    forall o
      ensures o in c.coalesced <==> Begun(s, ms, n + 1, o)
    {
      BegunNext(s, ms, n, o);
    }
    OutcomeIs(s, ms, n + 1, c);
  }

  lemma OutcomeIs(s: State, ms: seq<Mutation>, n: nat, b: Batch)
    requires n <= |ms|
    ensures b.Running? && OldRows(s, ms, n, b.s) ==> |s.rows| <= |b.s.rows|
    ensures Outcome(s, ms, n, b) <==>
      b.Running? && OldRows(s, ms, n, b.s) && NewRows(s, ms, n, b.s)
          && forall o :: o in b.coalesced <==> Begun(s, ms, n, o)
  {
    hide NewRows, Begun, TakenBefore;
  }

  lemma AppendedIs(b: Batch, m: Mutation)
    requires b.Running? && EnqueueOne(b, m).Running? && !Redundant(b.s, m)
    ensures var p, c := Prepared(b.s, b.coalesced, m), EnqueueOne(b, m);
      && c.coalesced == b.coalesced + {m.obj} && |p.rows| == |b.s.rows| && c.s.rows == p.rows + [Row(m, Pending)]
      && c.s.recoveries == p.recoveries
  {
    StepIsAppend(b, m);
    hide Admitted, Redundant, Coalesces, ValidMutation;
  }

  lemma OldRowsKept(s: State, ms: seq<Mutation>, n: nat, p: State, t: State)
    requires n <= |ms| && OldRows(s, ms, n, p) && p.rows <= t.rows && t.recoveries == p.recoveries
    ensures OldRows(s, ms, n, t)
  {
    hide TakenBefore;
  }

  lemma NewRowsStep(s: State, ms: seq<Mutation>, n: nat, was: State, t: State)
    requires n < |ms| && !Skips(s, ms, n) && |s.rows| <= |was.rows| && NewRows(s, ms, n, was)
    requires |t.rows| == |was.rows| + 1 && t.rows[|was.rows|] == Row(ms[n], Pending)
    requires forall x :: |s.rows| <= x < |was.rows| ==> t.rows[x] == was.rows[x]
    ensures NewRows(s, ms, n + 1, t)
  {
    hide Skips, Appends, RowOf;
    forall x | |s.rows| <= x < |t.rows|
      ensures t.rows[x].status == Pending && Appends(s, ms, n + 1, t.rows[x].m)
    {
      AppendsNext(s, ms, n, t.rows[x].m);
    }
    forall k | 0 <= k < n + 1 && !Skips(s, ms, k)
      ensures RowOf(s, t, ms[k])
    {
      if k < n {
        RowStays(s, was, t, ms[k]);
      } else {
        LastRow(s, t, |was.rows|);
      }
    }
  }

  lemma LastRow(s: State, t: State, x: nat)
    requires |s.rows| <= x < |t.rows|
    ensures RowOf(s, t, t.rows[x].m)
  {
  }

  lemma RowStays(s: State, t: State, u: State, m: Mutation)
    requires RowOf(s, t, m) && |t.rows| <= |u.rows| && forall x :: |s.rows| <= x < |t.rows| ==> u.rows[x] == t.rows[x]
    ensures RowOf(s, u, m)
  {
  }

  lemma StartOutcome(s: State, ms: seq<Mutation>)
    ensures Outcome(s, ms, 0, Running(s, {}))
  {
  }

  /** The whole batch: every row that was there is superseded exactly if the batch takes it, and every operation that is
      not dropped is queued. */
  lemma {:induction false} BatchOutcome(s: State, ms: seq<Mutation>, n: nat)
    requires n <= |ms| && EnqueueAll(Running(s, {}), ms[..n]).Running?
    ensures Outcome(s, ms, n, EnqueueAll(Running(s, {}), ms[..n]))
  {
    if n == 0 {
      StartOutcome(s, ms);
    } else {
      assert ms[..n][..n - 1] == ms[..n - 1];
      RunningPrefix(s, ms[..n]);
      BatchOutcome(s, ms, n - 1);
      var b := EnqueueAll(Running(s, {}), ms[..n - 1]);
      hide *;
      SkipsIs(s, ms, n - 1, b);
      if Skips(s, ms, n - 1) {
        OutcomeRuns(s, ms, n - 1, b);
        SkipStep(s, ms, n - 1, b);
        RedundantSkips(b, ms[n - 1]);
      } else {
        AppendStep(s, ms, n - 1, b);
      }
    }
  }

  lemma OutcomeRuns(s: State, ms: seq<Mutation>, n: nat, b: Batch)
    requires n <= |ms| && Outcome(s, ms, n, b)
    ensures b.Running?
  {
  }

  // ---------------------------------------------------------------- who is left waiting

  lemma WaitsIs(s: State, ms: seq<Mutation>, n: nat, b: Batch)
    requires n < |ms| && Outcome(s, ms, n, b)
    ensures DepsLive(b.s, ms[n]) <==> WaitsLive(s, ms, n)
  {
    hide Skips, Takes, TakenBefore, Appends, Begun, Deps;
    var t := b.s;
    if WaitsLive(s, ms, n) {
      forall j | 0 <= j < |t.rows| && t.rows[j].m.op in Deps(ms[n])
        ensures t.rows[j].status != Superseded
      {
      }
    }
    if DepsLive(t, ms[n]) {
      forall j | 0 <= j < |s.rows| && s.rows[j].m.op in Deps(ms[n])
        ensures s.rows[j].status != Superseded && !TakenBefore(s, ms, n, j)
      {
        assert t.rows[j].m == s.rows[j].m;
      }
    }
  }

  predicate LiveUpTo(s: State, ms: seq<Mutation>, n: nat)
    requires n <= |ms|
  {
    forall k :: 0 <= k < n && !Skips(s, ms, k) ==> WaitsLive(s, ms, k)
  }

  lemma LiveUpToNext(s: State, ms: seq<Mutation>, n: nat)
    requires n < |ms|
    ensures LiveUpTo(s, ms, n + 1) <==> LiveUpTo(s, ms, n) && (!Skips(s, ms, n) ==> WaitsLive(s, ms, n))
  {
    hide Skips, WaitsLive;
  }

  lemma LiveStepsNext(s: State, ms: seq<Mutation>, n: nat)
    requires n < |ms|
    ensures var b := EnqueueAll(Running(s, {}), ms[..n]);
            LiveSteps(s, ms[..n + 1])
            <==> LiveSteps(s, ms[..n]) && (b.Running? && !Redundant(b.s, ms[n]) ==> DepsLive(b.s, ms[n]))
  {
    assert ms[..n + 1][..n] == ms[..n];
    hide DepsLive, Redundant, EnqueueAll;
  }

  lemma {:induction false} StepsUpTo(s: State, ms: seq<Mutation>, n: nat)
    requires n <= |ms| && EnqueueAll(Running(s, {}), ms[..n]).Running?
    ensures LiveSteps(s, ms[..n]) <==> LiveUpTo(s, ms, n)
  {
    if n > 0 {
      assert ms[..n][..n - 1] == ms[..n - 1];
      hide *;
      RunningPrefix(s, ms[..n]);
      StepsUpTo(s, ms, n - 1);
      BatchOutcome(s, ms, n - 1);
      var b := EnqueueAll(Running(s, {}), ms[..n - 1]);
      SkipsIs(s, ms, n - 1, b);
      WaitsIs(s, ms, n - 1, b);
      LiveUpToNext(s, ms, n - 1);
      LiveStepsNext(s, ms, n - 1);
    }
  }

  lemma LiveStepsIs(s: State, ms: seq<Mutation>)
    requires EnqueueAll(Running(s, {}), ms).Running?
    ensures LiveSteps(s, ms) <==> LiveBatch(s, ms)
  {
    assert ms[..|ms|] == ms;
    StepsUpTo(s, ms, |ms|);
    hide Skips, WaitsLive, EnqueueAll, LiveSteps;
  }

  /** An accepted batch leaves nobody waiting for a superseded operation exactly when no operation of it that is not
      dropped waits for one that was superseded before or that something earlier in the batch takes. */
  lemma BatchStrandsIff(s: State, ms: seq<Mutation>)
    requires WellFormed(s) && NoneStranded(s) && EnqueueAll(Running(s, {}), ms).Running?
    ensures NoneStranded(EnqueueAll(Running(s, {}), ms).s) <==> LiveBatch(s, ms)
  {
    hide *;
    StepsStrandIff(s, ms);
    LiveStepsIs(s, ms);
  }

  // ---------------------------------------------------------------- a batch that strands its own operation

  /** The create of a folder; any other operation may name it. */
  function FolderCreate(n: nat, dependency: Option<Uuid>): Mutation {
    Mutation(0x7000_8000_0000_0000_0000 + n, Create, 0x8000_0000_0000_0000 + n, Folder, 0, None, "n", [], dependency,
             [])
  }

  lemma FolderCreateValid(n: nat, dependency: Option<Uuid>)
    requires n < 10 && (dependency == None
                        || (ValidOperationId(dependency.value) && dependency.value != FolderCreate(n, None).op))
    ensures ValidMutation(FolderCreate(n, dependency))
  {
    SingleLetter('n');
    hide ValidComponent;
    assert Deps(FolderCreate(n, dependency)) == if dependency == None then {} else {dependency.value};
  }

  /** An outbox whose one operation was superseded. */
  function OneSuperseded(): State {
    State([Row(FolderCreate(1, None), Superseded)], map[], {}, map[])
  }

  lemma OneSupersededSound()
    ensures Invariant(OneSuperseded()) && RowsValid(OneSuperseded()) && NoneStuck(OneSuperseded())
            && NoneStranded(OneSuperseded())
  {
    FolderCreateValid(1, None);
    hide ValidMutation;
    var s := OneSuperseded();
    assert forall o, i: nat :: !QueuedOf(s, o, i);
  }

  /** A batch that names it: accepted, and its operation waits for ever. */
  lemma NamesSuperseded() returns (s: State, ms: seq<Mutation>)
    ensures Invariant(s) && RowsValid(s) && NoneStuck(s) && NoneStranded(s) && EnqueueAll(Running(s, {}), ms).Running?
    ensures !NoneStranded(EnqueueAll(Running(s, {}), ms).s)
  {
    s := OneSuperseded();
    var m := FolderCreate(2, Some(FolderCreate(1, None).op));
    ms := [m];
    OneSupersededSound();
    FolderCreateValid(1, None);
    FolderCreateValid(2, m.dependency);
    NamesIt(s, m);
    hide *;
    assert EnqueueAll(Running(s, {}), ms) == EnqueueOne(Running(s, {}), m) by { OneOperation(s, m); }
  }

  lemma OneOperation(s: State, m: Mutation)
    ensures EnqueueAll(Running(s, {}), [m]) == EnqueueOne(Running(s, {}), m)
  {
    assert [m][..0] == [];
    hide EnqueueOne;
  }

  lemma NamesIt(s: State, m: Mutation)
    requires s == OneSuperseded() && m == FolderCreate(2, Some(FolderCreate(1, None).op)) && ValidMutation(m)
    ensures EnqueueOne(Running(s, {}), m).Running? && !NoneStranded(EnqueueOne(Running(s, {}), m).s)
  {
    hide ValidMutation;
    assert m.obj != s.rows[0].m.obj && m.op != s.rows[0].m.op;
    assert Deps(m) == {s.rows[0].m.op};
    assert HasOp(s, 1, s.rows[0].m.op);
    assert Count(s, m.obj, 1) == 0;
    assert Admitted(s, m);
    var t := EnqueueOne(Running(s, {}), m).s;
    hide Admitted, Redundant;
    assert t.rows[0] == s.rows[0] && t.rows[1] == Row(m, Pending);
    assert Dep(t, 1, 0);
  }
}
