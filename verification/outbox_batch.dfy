/** Whole batches: exactly which accepted batches keep every queue a chain, and which strand no operation. */
module OutboxBatch {
  import opened Ids
  import opened Naming
  import opened Optional
  import opened Outbox
  import opened OutboxChain
  import opened OutboxEnqueue

  // ---------------------------------------------------------------- what one step does to an object's queue

  lemma StepRows(b: Batch, m: Mutation)
    requires b.Running? && WellFormed(b.s) && EnqueueOne(b, m).Running? && !Redundant(b.s, m)
    ensures var s, t := b.s, EnqueueOne(b, m).s;
            && Admitted(s, m) && EnqueueOne(b, m).coalesced == b.coalesced + {m.obj}
            && t.baselines == s.baselines && t.met == s.met && |t.rows| == |s.rows| + 1
            && t.rows[|s.rows|] == Row(m, Pending)
            && (forall j :: 0 <= j < |s.rows| ==> t.rows[j].m == s.rows[j].m)
            && (forall j :: 0 <= j < |s.rows|
                            && (s.rows[j].m.obj != m.obj || m.obj in b.coalesced || s.rows[j].m.op in Deps(m)) ==>
                  t.rows[j] == s.rows[j])
            && WellFormed(t)
  {
    var p := Prepared(b.s, b.coalesced, m);
    CoalescedRows(b.s, m);
    InsertableKept(b.s, p, m);
    AppendedWellFormed(p, m);
  }

  lemma ReferencedKept(s: State, t: State, h: nat)
    requires |s.rows| <= |t.rows| && forall j :: 0 <= j < |s.rows| ==> t.rows[j].m == s.rows[j].m
    requires Referenced(s, h)
    ensures Referenced(t, h)
  {
    var i :| h < i < |s.rows| && Dep(s, i, h);
    assert Dep(t, i, h);
  }

  lemma StepIsAppend(b: Batch, m: Mutation)
    requires b.Running? && EnqueueOne(b, m).Running? && !Redundant(b.s, m)
    ensures EnqueueOne(b, m).s == Appended(Prepared(b.s, b.coalesced, m), m)
  {
  }

  /** Later creates of o are refused: it has a baseline, or a queued operation another one depends on. */
  ghost predicate Anchored(s: State, o: Uuid) {
    o in s.baselines || exists h: nat :: QueuedOf(s, o, h) && Referenced(s, h)
  }

  predicate CreatedIn(ms: seq<Mutation>, o: Uuid) {
    exists k :: 0 <= k < |ms| && ms[k].kind == Create && ms[k].obj == o
  }

  /** What a running batch has done to the queue of o. */
  ghost predicate Touched(s: State, ms: seq<Mutation>, b: Batch, o: Uuid) {
    && b.Running? && b.s.baselines == s.baselines && |s.rows| <= |b.s.rows| && WellFormed(b.s)
    && (forall j :: 0 <= j < |s.rows| ==> b.s.rows[j].m == s.rows[j].m)
    && (o !in b.coalesced ==> !CreatedIn(ms, o) && forall j: nat :: QueuedOf(b.s, o, j) == QueuedOf(s, o, j))
    && (o in b.coalesced ==> (if CreatedIn(ms, o) then exists j: nat :: QueuedOf(b.s, o, j) else Anchored(b.s, o)))
  }

  lemma FollowerAnchors(s: State, t: State, m: Mutation)
    requires FollowsProjection(s, m) && |t.rows| == |s.rows| + 1 && t.rows[|s.rows|].m == m
             && t.baselines == s.baselines
    requires forall j :: 0 <= j < |s.rows| && s.rows[j].m.op in Deps(m) ==> t.rows[j] == s.rows[j]
    ensures Anchored(t, m.obj)
  {
    if m.obj !in s.baselines {
      var h := Predecessor(s, m.obj, |s.rows|);
      LastIs(s, m.obj, h, |s.rows|);
      assert Dep(t, |s.rows|, h);
      assert QueuedOf(t, m.obj, h) && Referenced(t, h);
    }
  }

  lemma AnchorKept(s: State, t: State, o: Uuid)
    requires Anchored(s, o) && t.baselines == s.baselines && |s.rows| <= |t.rows|
    requires forall j :: 0 <= j < |s.rows| ==> t.rows[j].m == s.rows[j].m
    requires forall j: nat :: QueuedOf(s, o, j) ==> QueuedOf(t, o, j)
    ensures Anchored(t, o)
  {
    if o !in s.baselines {
      var h: nat :| QueuedOf(s, o, h) && Referenced(s, h);
      ReferencedKept(s, t, h);
    }
  }

  lemma CreatedInLast(ms: seq<Mutation>, m: Mutation, o: Uuid)
    ensures CreatedIn(ms + [m], o) == (CreatedIn(ms, o) || (m.kind == Create && m.obj == o))
  {
    var all := ms + [m];
    if CreatedIn(ms, o) {
      var k :| 0 <= k < |ms| && ms[k].kind == Create && ms[k].obj == o;
      assert all[k] == ms[k];
    }
    if m.kind == Create && m.obj == o {
      assert all[|ms|] == m;
    }
    if CreatedIn(all, o) {
      var k :| 0 <= k < |all| && all[k].kind == Create && all[k].obj == o;
      assert k < |ms| ==> all[k] == ms[k];
    }
  }

  lemma TouchOwn(s: State, ms: seq<Mutation>, b: Batch, m: Mutation)
    requires Touched(s, ms, b, m.obj) && EnqueueOne(b, m).Running? && !Redundant(b.s, m)
    ensures Touched(s, ms + [m], EnqueueOne(b, m), m.obj)
  {
    CreatedInLast(ms, m, m.obj);
    StepRows(b, m);
    var c, o := EnqueueOne(b, m), m.obj;
    hide EnqueueOne, Redundant, WellFormed, CreatedIn, ValidMutation, Insertable, Anchored;
    if m.kind == Create {
      assert QueuedOf(c.s, o, |b.s.rows|);
    } else {
      FollowerAnchors(b.s, c.s, m);
      if o in b.coalesced && CreatedIn(ms, o) {
        var j: nat :| QueuedOf(b.s, o, j);
        assert QueuedOf(c.s, o, j);
      }
    }
  }

  lemma TouchOther(s: State, ms: seq<Mutation>, b: Batch, m: Mutation, o: Uuid)
    requires Touched(s, ms, b, o) && EnqueueOne(b, m).Running? && !Redundant(b.s, m) && o != m.obj
    ensures Touched(s, ms + [m], EnqueueOne(b, m), o)
  {
    CreatedInLast(ms, m, o);
    StepRows(b, m);
    var c := EnqueueOne(b, m);
    hide EnqueueOne, Redundant, WellFormed, CreatedIn, Admitted, Anchored;
    assert forall j: nat :: QueuedOf(b.s, o, j) == QueuedOf(c.s, o, j);
    hide QueuedOf;
    if o in b.coalesced && !CreatedIn(ms, o) {
      AnchorKept(b.s, c.s, o);
    }
  }

  lemma TouchStep(s: State, ms: seq<Mutation>, b: Batch, m: Mutation, o: Uuid)
    requires Touched(s, ms, b, o) && EnqueueOne(b, m).Running?
    ensures Touched(s, ms + [m], EnqueueOne(b, m), o)
  {
    if Redundant(b.s, m) {
      CreatedInLast(ms, m, o);
      hide WellFormed, CreatedIn, Anchored;
    } else {
      hide *;
      if o == m.obj {
        TouchOwn(s, ms, b, m);
      } else {
        TouchOther(s, ms, b, m, o);
      }
    }
  }

  lemma {:induction false} TouchAll(s: State, ms: seq<Mutation>, o: Uuid)
    requires WellFormed(s) && EnqueueAll(Running(s, {}), ms).Running?
    ensures Touched(s, ms, EnqueueAll(Running(s, {}), ms), o)
  {
    if ms == [] {
      assert !CreatedIn(ms, o);
    } else {
      var init, m := ms[..|ms| - 1], ms[|ms| - 1];
      assert init + [m] == ms;
      hide *;
      RunningPrefix(s, ms);
      TouchAll(s, init, o);
      TouchStep(s, init, EnqueueAll(Running(s, {}), init), m, o);
    }
  }

  lemma RunningPrefix(s: State, ms: seq<Mutation>)
    requires ms != [] && EnqueueAll(Running(s, {}), ms).Running?
    ensures EnqueueAll(Running(s, {}), ms[..|ms| - 1]).Running?
    ensures EnqueueAll(Running(s, {}), ms) == EnqueueOne(EnqueueAll(Running(s, {}), ms[..|ms| - 1]), ms[|ms| - 1])
  {
  }

  // ---------------------------------------------------------------- creates that stand alone

  /** No queued operation of the created object is among the create's dependencies. */
  predicate NamesNoOwn(s: State, m: Mutation) {
    m.kind == Create ==> forall j :: 0 <= j < |s.rows| && QueuedOf(s, m.obj, j) ==> s.rows[j].m.op !in Deps(m)
  }

  /** What a caller can check of a batch: it creates no object twice, and no create depends on a queued operation of its
      own object. */
  predicate CreatesAlone(s: State, ms: seq<Mutation>) {
    && (forall i :: 0 <= i < |ms| ==> NamesNoOwn(s, ms[i]))
    && (forall k, i :: 0 <= k < i < |ms| && ms[k].kind == Create && ms[i].kind == Create ==> ms[k].obj != ms[i].obj)
  }

  lemma NotAnchored(s: State, o: Uuid)
    requires CreateAllowed(s, o)
    ensures !Anchored(s, o)
  {
    assert forall h: nat :: QueuedOf(s, o, h) ==> s.rows[h].status == Pending && !Referenced(s, h);
  }

  /** At its step, a create stands alone exactly when the batch creates its object for the first time and the create
      names none of the operations of its object that were queued before the batch. */
  lemma AloneAtStep(s: State, ms: seq<Mutation>, b: Batch, m: Mutation)
    requires Touched(s, ms, b, m.obj) && WellFormed(s) && m.kind == Create && Admitted(b.s, m)
    ensures CreateAlone(b.s, b.coalesced, m) <==> !CreatedIn(ms, m.obj) && NamesNoOwn(s, m)
  {
    hide WellFormed, ValidMutation, CreatedIn, Insertable;
    var o := m.obj;
    NotAnchored(b.s, o);
    if o in b.coalesced {
      assert CreatedIn(ms, o);
      var j: nat :| QueuedOf(b.s, o, j);
    }
    assert forall j: nat :: j < |s.rows| ==> s.rows[j].m == b.s.rows[j].m;
    assert forall j: nat :: QueuedOf(s, o, j) ==> j < |s.rows|;
  }

  lemma CreatesAloneLast(s: State, ms: seq<Mutation>, m: Mutation)
    ensures CreatesAlone(s, ms + [m])
            <==> CreatesAlone(s, ms) && NamesNoOwn(s, m) && (m.kind == Create ==> !CreatedIn(ms, m.obj))
  {
    var all := ms + [m];
    assert forall i :: 0 <= i < |ms| ==> all[i] == ms[i];
    assert all[|ms|] == m;
    hide NamesNoOwn;
    if CreatesAlone(s, all) {
      assert forall i :: 0 <= i < |ms| ==> NamesNoOwn(s, all[i]);
    }
  }

  /** A batch that creates only objects with an empty queue keeps every queue a chain. */
  lemma {:induction false} BatchKeeps(s: State, ms: seq<Mutation>)
    requires Invariant(s) && CreatesAlone(s, ms) && EnqueueAll(Running(s, {}), ms).Running?
    ensures Invariant(EnqueueAll(Running(s, {}), ms).s)
  {
    if ms != [] {
      FromInvariant(s, 0);
      var init, m := ms[..|ms| - 1], ms[|ms| - 1];
      assert init + [m] == ms;
      hide *;
      CreatesAloneLast(s, init, m);
      RunningPrefix(s, ms);
      BatchKeeps(s, init);
      TouchAll(s, init, m.obj);
      BatchKeepsStep(s, init, EnqueueAll(Running(s, {}), init), m);
    }
  }

  lemma BatchKeepsStep(s: State, ms: seq<Mutation>, b: Batch, m: Mutation)
    requires WellFormed(s) && b.Running? && Invariant(b.s) && Touched(s, ms, b, m.obj) && EnqueueOne(b, m).Running?
    requires m.kind == Create ==> !CreatedIn(ms, m.obj) && NamesNoOwn(s, m)
    ensures Invariant(EnqueueOne(b, m).s)
  {
    hide Invariant, Touched, Admitted, Redundant, WellFormed, CreatedIn, NamesNoOwn;
    if !Redundant(b.s, m) {
      assert Admitted(b.s, m);
      if m.kind == Create {
        AloneAtStep(s, ms, b, m);
      }
      EnqueueOneKeeps(b, m);
    }
  }

  // ---------------------------------------------------------------- and the other way round

  lemma ForkAppears(b: Batch, m: Mutation)
    requires b.Running? && WellFormed(b.s) && m.kind == Create && Admitted(b.s, m) && !CreateAlone(b.s, b.coalesced, m)
    requires EnqueueOne(b, m).Running?
    ensures Forked(EnqueueOne(b, m).s, m.obj) && m.obj in EnqueueOne(b, m).coalesced
  {
    StepRows(b, m);
    var s, t, o := b.s, EnqueueOne(b, m).s, m.obj;
    var j :| 0 <= j < |s.rows| && QueuedOf(s, o, j) && (o in b.coalesced || s.rows[j].m.op in Deps(m));
    hide EnqueueOne, WellFormed;
    assert t.rows[j] == s.rows[j] && QueuedOf(t, o, j) && QueuedOf(t, o, |s.rows|) && t.rows[|s.rows|].m.base == 0;
  }

  lemma ForkStays(b: Batch, m: Mutation, o: Uuid)
    requires b.Running? && WellFormed(b.s) && Forked(b.s, o) && o in b.coalesced && EnqueueOne(b, m).Running?
    ensures Forked(EnqueueOne(b, m).s, o) && o in EnqueueOne(b, m).coalesced
  {
    if !Redundant(b.s, m) {
      StepRows(b, m);
      var s, t := b.s, EnqueueOne(b, m).s;
      hide EnqueueOne, WellFormed;
      var j, i :| 0 <= j < i < |s.rows| && QueuedOf(s, o, j) && QueuedOf(s, o, i) && s.rows[i].m.base == 0;
      assert t.rows[j] == s.rows[j] && t.rows[i] == s.rows[i];
      assert QueuedOf(t, o, j) && QueuedOf(t, o, i);
    }
  }

  lemma {:induction false} StuckNeverAppears(s: State, ms: seq<Mutation>)
    requires WellFormed(s) && NoneStuck(s) && EnqueueAll(Running(s, {}), ms).Running?
    ensures NoneStuck(EnqueueAll(Running(s, {}), ms).s)
  {
    if ms != [] {
      hide *;
      var init := ms[..|ms| - 1];
      RunningPrefix(s, ms);
      StuckNeverAppears(s, init);
      TouchAll(s, init, 0);
      TouchedFacts(s, init, EnqueueAll(Running(s, {}), init), 0);
      StuckStep(EnqueueAll(Running(s, {}), init), ms[|ms| - 1]);
    }
  }

  lemma TouchedFacts(s: State, ms: seq<Mutation>, b: Batch, o: Uuid)
    requires Touched(s, ms, b, o)
    ensures b.Running? && WellFormed(b.s)
  {
  }

  lemma StuckStep(b: Batch, m: Mutation)
    requires b.Running? && WellFormed(b.s) && NoneStuck(b.s) && EnqueueOne(b, m).Running?
    ensures NoneStuck(EnqueueOne(b, m).s)
  {
    if !Redundant(b.s, m) {
      var p := Prepared(b.s, b.coalesced, m);
      CoalescedRows(b.s, m);
      AppendedRows(p, m);
      assert forall j: nat :: Stuck(p, j) ==> Stuck(b.s, j);
    }
  }

  lemma NothingForks(s: State)
    ensures CreatesAlone(s, [])
  {
  }

  lemma TouchedIsWellFormed(s: State, ms: seq<Mutation>, b: Batch, o: Uuid)
    requires Touched(s, ms, b, o)
    ensures b.Running? && WellFormed(b.s)
  {
    hide WellFormed, CreatedIn, Anchored;
  }

  lemma FollowerNamesNoOwn(s: State, m: Mutation)
    ensures m.kind != Create ==> NamesNoOwn(s, m)
  {
  }

  lemma StepAdmits(b: Batch, m: Mutation)
    requires b.Running? && EnqueueOne(b, m).Running? && m.kind == Create
    ensures Admitted(b.s, m)
  {
    hide Admitted;
  }

  lemma {:induction false} ForkInBatch(s: State, ms: seq<Mutation>) returns (o: Uuid)
    requires WellFormed(s) && !CreatesAlone(s, ms) && EnqueueAll(Running(s, {}), ms).Running?
    ensures Forked(EnqueueAll(Running(s, {}), ms).s, o) && o in EnqueueAll(Running(s, {}), ms).coalesced
  {
    hide *;
    NothingForks(s);
    var init, m := ms[..|ms| - 1], ms[|ms| - 1];
    assert init + [m] == ms;
    RunningPrefix(s, ms);
    TouchAll(s, init, m.obj);
    CreatesAloneLast(s, init, m);
    var b := EnqueueAll(Running(s, {}), init);
    TouchedIsWellFormed(s, init, b, m.obj);
    FollowerNamesNoOwn(s, m);
    if !CreatesAlone(s, init) {
      o := ForkInBatch(s, init);
      ForkStays(b, m, o);
    } else {
      o := m.obj;
      StepAdmits(b, m);
      AloneAtStep(s, init, b, m);
      ForkAppears(b, m);
    }
  }

  /** Exactly: an accepted batch on a store without conflicts keeps the queues chains if and only if it creates no
      object twice and no create depends on a queued operation of its own object. */
  lemma BatchKeepsIff(s: State, ms: seq<Mutation>)
    requires Invariant(s) && NoneStuck(s) && EnqueueAll(Running(s, {}), ms).Running?
    ensures Invariant(EnqueueAll(Running(s, {}), ms).s) <==> CreatesAlone(s, ms)
  {
    FromInvariant(s, 0);
    hide *;
    if CreatesAlone(s, ms) {
      BatchKeeps(s, ms);
    } else {
      var o := ForkInBatch(s, ms);
      StuckNeverAppears(s, ms);
      ForkBreaksChain(EnqueueAll(Running(s, {}), ms).s, o);
    }
  }

  lemma EmptyInvariant(s: State)
    requires s.rows == [] && s.met == {}
    ensures Invariant(s) && NoneStuck(s)
  {
  }

  lemma ForkingCreate(op: Uuid, folder: Uuid)
    requires ValidOperationId(op) && ValidObjectId(folder)
    ensures ValidMutation(Mutation(op, Create, folder, Folder, 0, None, "n", [], None, []))
  {
    SingleLetter('n');
    hide ValidComponent, ValidOperationId, ValidObjectId;
  }

  lemma NothingStuck(s: State)
    requires s.rows == []
    ensures NoneStuck(s)
  {
  }

  /** The first create of an empty outbox is queued. */
  lemma FirstCreate(m: Mutation)
    requires ValidMutation(m) && m.kind == Create && Deps(m) == {}
    ensures EnqueueOne(Running(State([], map[], {}, map[]), {}), m)
            == Running(State([Row(m, Pending)], map[], {}, map[]), {m.obj})
  {
    hide ValidMutation, Deps;
    assert Coalesced(State([], map[], {}, map[]), m).rows == [];
  }

  /** So is a second create of the same object, right behind it in the batch. */
  lemma SecondCreate(m: Mutation, n: Mutation)
    requires ValidMutation(n) && m.kind == n.kind == Create && m.obj == n.obj && m.op != n.op
             && Deps(m) == Deps(n) == {}
    ensures EnqueueOne(Running(State([Row(m, Pending)], map[], {}, map[]), {m.obj}), n).Running?
  {
    hide ValidMutation, Deps;
    var s := State([Row(m, Pending)], map[], {}, map[]);
    assert Count(s, n.obj, 1) <= 1;
  }

  /** A batch the code accepts that leaves one object with two queued creates, both at base revision zero. */
  lemma TwoCreatesFork() returns (s: State, ms: seq<Mutation>)
    ensures Invariant(s) && NoneStuck(s) && EnqueueAll(Running(s, {}), ms).Running?
    ensures !Invariant(EnqueueAll(Running(s, {}), ms).s)
  {
    s := State([], map[], {}, map[]);
    var folder := 0x8000_0000_0000_0005;
    var m := Mutation(0x7000_8000_0000_0000_0001, Create, folder, Folder, 0, None, "n", [], None, []);
    var n := m.(op := 0x7000_8000_0000_0000_0002);
    ms := [m, n];
    EmptyInvariant(s);
    ForkingCreate(m.op, folder);
    ForkingCreate(n.op, folder);
    FirstCreate(m);
    SecondCreate(m, n);
    var b := EnqueueOne(Running(s, {}), m);
    hide EnqueueOne, ValidMutation, Invariant, NoneStuck;
    assert ms[..1] == [m] && [m][..0] == [];
    assert EnqueueAll(Running(s, {}), []) == Running(s, {});
    assert EnqueueAll(Running(s, {}), [m]) == b;
    assert EnqueueAll(Running(s, {}), ms) == EnqueueOne(b, n);
    assert NoneStuck(s) by {
      NothingStuck(s);
    }
    assert ms[0].kind == Create && ms[1].kind == Create && ms[0].obj == ms[1].obj;
    assert !CreatesAlone(s, ms);
    BatchKeepsIff(s, ms);
  }
}
