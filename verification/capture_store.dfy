/** Deriving the batch from a scan, and queueing it. */
module CaptureStore {
  import opened Ids
  import opened Naming
  import opened Optional
  import opened Outbox
  import opened OutboxBatch
  import opened OutboxStore
  import opened OutboxProgress
  import opened Capture
  import opened OutboxExtend
  import opened CaptureOps
  import opened CaptureReplay
  import opened CaptureWaits
  import Sorting

  // ---------------------------------------------------------------- classification

  function IdsOf(os: seq<Observed>, n: nat): set<Uuid>
    requires n <= |os|
  {
    if n == 0 then {} else IdsOf(os, n - 1) + {os[n - 1].id}
  }

  ghost predicate IdsDistinct(os: seq<Observed>) {
    forall i, j :: 0 <= i < j < |os| ==> os[i].id != os[j].id
  }

  /** The current objects among `seen` with this fate, each once. */
  ghost predicate Lists(e: Scan, os: seq<Observed>, fate: Fate, seen: set<Uuid>) {
    IdsDistinct(os) && forall o :: o in os
                        <==> o.id in seen && o.id in e.current && e.current[o.id] == o && FateOf(e, o) == fate
  }

  ghost predicate ListsRemoved(e: Scan, os: seq<Observed>, seen: set<Uuid>) {
    IdsDistinct(os) && forall o :: o in os <==> o.id in seen && Removed(e, o.id) && e.earlier[o.id] == o
  }

  ghost predicate Readable(e: Scan, seen: set<Uuid>) {
    forall id :: id in seen && id in e.current && Considered(e, e.current[id]) ==> ProjectionOk(e.s, id)
  }

  lemma ListNext(e: Scan, os: seq<Observed>, fate: Fate, seen: set<Uuid>, id: Uuid)
    requires Lists(e, os, fate, seen) && id !in seen && id in e.current && e.current[id].id == id
    ensures FateOf(e, e.current[id]) == fate ==> Lists(e, os + [e.current[id]], fate, seen + {id})
    ensures FateOf(e, e.current[id]) != fate ==> Lists(e, os, fate, seen + {id})
  {
    var o := e.current[id];
    hide FateOf;
    assert forall i :: 0 <= i < |os| ==> os[i] in os;
    var all := os + [o];
    forall x
      ensures x in all <==> x in os || x == o
    {
    }
  }

  lemma RemovedNext(e: Scan, os: seq<Observed>, seen: set<Uuid>, id: Uuid)
    requires ListsRemoved(e, os, seen) && id !in seen && id in e.earlier && e.earlier[id].id == id
    ensures Removed(e, id) ==> ListsRemoved(e, os + [e.earlier[id]], seen + {id})
    ensures !Removed(e, id) ==> ListsRemoved(e, os, seen + {id})
  {
    var o := e.earlier[id];
    hide Durable;
    assert forall i :: 0 <= i < |os| ==> os[i] in os;
    var all := os + [o];
    forall x
      ensures x in all <==> x in os || x == o
    {
    }
  }

  lemma NoneListed(e: Scan)
    ensures Lists(e, [], MakeNew, {}) && Lists(e, [], Follow, {}) && ListsRemoved(e, [], {}) && Readable(e, {})
  {
  }

  lemma FateIs(e: Scan, o: Observed)
    ensures FateOf(e, o) == if !Considered(e, o) then Ignore else if Durable(e.s, o.id) then Follow
                            else if o.id !in e.earlier || !SameObserved(e.earlier[o.id], o) then MakeNew else Ignore
  {
    hide Considered, Durable, SameObserved;
  }

  lemma ReadableNext(e: Scan, seen: set<Uuid>, id: Uuid)
    requires Readable(e, seen) && id in e.current && (Considered(e, e.current[id]) ==> ProjectionOk(e.s, id))
    ensures Readable(e, seen + {id})
  {
    hide Considered, ProjectionOk;
  }

  lemma SplitKeys(keys: set<Uuid>, left: set<Uuid>, id: Uuid)
    requires left <= keys && id in left
    ensures keys - (left - {id}) == keys - left + {id} && id !in keys - left
  {
  }

  lemma Unreadable(e: Scan, seen: set<Uuid>, id: Uuid)
    requires id in seen && !ProjectionOk(e.s, id)
    ensures id in e.current && Considered(e, e.current[id]) ==> !Readable(e, seen)
    ensures Gone(e, id) ==> !ReadableGone(e, seen)
  {
    hide ProjectionOk, Considered, Gone;
  }

  /** Sorts the current objects into new ones and followed ones; fails if a projection cannot be read. */
  method Classify(e: Scan) returns (ok: bool, creates: seq<Observed>, changes: seq<Observed>)
    requires ScanOk(e)
    ensures ok ==> Lists(e, creates, MakeNew, e.current.Keys) && Lists(e, changes, Follow, e.current.Keys)
    ensures ok <==> Readable(e, e.current.Keys)
  {
    hide *;
    creates, changes := [], [];
    NoneListed(e);
    var left := e.current.Keys;
    assert e.current.Keys - left == {};
    while left != {}
      invariant left <= e.current.Keys
      invariant Lists(e, creates, MakeNew, e.current.Keys - left) && Lists(e, changes, Follow, e.current.Keys - left)
      invariant Readable(e, e.current.Keys - left)
      decreases left
    {
      var id :| id in left;
      SplitKeys(e.current.Keys, left, id);
      var o := e.current[id];
      ScanAt(e, id);
      FateIs(e, o);
      ListNext(e, creates, MakeNew, e.current.Keys - left, id);
      ListNext(e, changes, Follow, e.current.Keys - left, id);
      if Considered(e, o) {
        var readable, revision, last, durable := Store.Projection(e.s, id);
        if !readable {
          Unreadable(e, e.current.Keys, id);
          return false, [], [];
        }
        if durable {
          changes := changes + [o];
        } else if id !in e.earlier || !SameObserved(e.earlier[id], o) {
          creates := creates + [o];
        }
      }
      ReadableNext(e, e.current.Keys - left, id);
      left := left - {id};
    }
    assert e.current.Keys - left == e.current.Keys;
    ok := true;
  }

  ghost predicate ReadableGone(e: Scan, seen: set<Uuid>) {
    forall id :: id in seen && Gone(e, id) ==> ProjectionOk(e.s, id)
  }

  /** Nothing of a cancelled object is queued. */
  ghost predicate Idle(s: State, cancel: seq<Uuid>) {
    forall i :: 0 <= i < |cancel| ==> !Durable(s, cancel[i])
  }

  /** Exactly the vanished objects among `seen` that nothing is queued for and the server does not know. */
  ghost predicate ListsIdle(e: Scan, cancel: seq<Uuid>, seen: set<Uuid>) {
    forall id :: id in cancel <==> id in seen && Gone(e, id) && !Durable(e.s, id)
  }

  lemma ListsIdleNext(e: Scan, cancel: seq<Uuid>, seen: set<Uuid>, id: Uuid)
    requires ListsIdle(e, cancel, seen) && id !in seen
    ensures Gone(e, id) && !Durable(e.s, id) ==> ListsIdle(e, cancel + [id], seen + {id})
    ensures !(Gone(e, id) && !Durable(e.s, id)) ==> ListsIdle(e, cancel, seen + {id})
  {
    hide Gone, Durable;
  }

  lemma GoneIs(e: Scan, id: Uuid)
    ensures Gone(e, id) <==> id in e.earlier && id !in e.current && id !in e.pending && id !in e.options.appliedDeletes
    ensures Removed(e, id) <==> Gone(e, id) && Durable(e.s, id)
  {
    hide Durable;
  }

  lemma ReadableGoneNext(e: Scan, seen: set<Uuid>, id: Uuid)
    requires ReadableGone(e, seen) && (Gone(e, id) ==> ProjectionOk(e.s, id))
    ensures ReadableGone(e, seen + {id})
  {
    hide Gone, ProjectionOk;
  }

  lemma NothingGone(e: Scan)
    ensures ReadableGone(e, {}) && Idle(e.s, []) && ListsIdle(e, [], {})
  {
  }

  lemma IdleNext(s: State, cancel: seq<Uuid>, id: Uuid)
    requires Idle(s, cancel) && !Durable(s, id)
    ensures Idle(s, cancel + [id])
  {
    hide Durable;
  }

  /** Sorts the vanished objects into those to delete and those whose queue, empty as it is, is to be cancelled. */
  method Vanished(e: Scan) returns (ok: bool, deletes: seq<Observed>, cancel: seq<Uuid>)
    requires ScanOk(e)
    ensures ok ==> ListsRemoved(e, deletes, e.earlier.Keys) && Idle(e.s, cancel) && ListsIdle(e, cancel, e.earlier.Keys)
    ensures ok <==> ReadableGone(e, e.earlier.Keys)
  {
    hide *;
    deletes, cancel := [], [];
    NoneListed(e);
    NothingGone(e);
    var left := e.earlier.Keys;
    assert e.earlier.Keys - left == {};
    while left != {}
      invariant left <= e.earlier.Keys
      invariant ListsRemoved(e, deletes, e.earlier.Keys - left) && ReadableGone(e, e.earlier.Keys - left)
                && Idle(e.s, cancel) && ListsIdle(e, cancel, e.earlier.Keys - left)
      decreases left
    {
      var id :| id in left;
      SplitKeys(e.earlier.Keys, left, id);
      ListsIdleNext(e, cancel, e.earlier.Keys - left, id);
      ScanAt(e, id);
      GoneIs(e, id);
      RemovedNext(e, deletes, e.earlier.Keys - left, id);
      if id !in e.current && id !in e.pending && id !in e.options.appliedDeletes {
        var readable, revision, last, durable := Store.Projection(e.s, id);
        if !readable {
          Unreadable(e, e.earlier.Keys, id);
          return false, [], [];
        }
        if durable {
          deletes := deletes + [e.earlier[id]];
        } else {
          IdleNext(e.s, cancel, id);
          cancel := cancel + [id];
        }
      }
      ReadableGoneNext(e, e.earlier.Keys - left, id);
      left := left - {id};
    }
    assert e.earlier.Keys - left == e.earlier.Keys;
    ok := true;
  }

  // ---------------------------------------------------------------- order

  predicate ShallowFirst(a: Observed, b: Observed) {
    |a.path| < |b.path| || (|a.path| == |b.path| && Less(Joined(a.path), Joined(b.path)))
  }

  predicate ByPath(a: Observed, b: Observed) {
    Less(Joined(a.path), Joined(b.path))
  }

  predicate DeepFirst(a: Observed, b: Observed) {
    |a.path| > |b.path| || (|a.path| == |b.path| && Less(Joined(a.path), Joined(b.path)))
  }

  lemma SortedSame(before: (Observed, Observed) -> bool, os: seq<Observed>)
    requires IdsDistinct(os)
    ensures var s := Sorting.Sort(before, os); IdsDistinct(s) && forall o :: o in s <==> o in os
  {
    var key := (o: Observed) => o.id;
    assert Sorting.KeysDistinct(key, os);
    Sorting.SortDistinct(before, key, os);
    var s := Sorting.Sort(before, os);
    forall i, j | 0 <= i < j < |s|
      ensures s[i].id != s[j].id
    {
      assert key(s[i]) != key(s[j]);
    }
    forall o
      ensures o in s <==> o in os
    {
      Sorting.SortHas(before, os, o);
    }
  }

  /** Deeper paths come first. */
  ghost predicate BottomUp(os: seq<Observed>) {
    forall i, j :: 0 <= i < j < |os| ==> |os[i].path| >= |os[j].path|
  }

  lemma DeepFirstSorts(os: seq<Observed>)
    ensures BottomUp(Sorting.Sort(DeepFirst, os))
  {
    var rank := (o: Observed) => -|o.path|;
    hide Less, Joined;
    assert Sorting.Agrees(DeepFirst, rank);
    Sorting.SortRanked(DeepFirst, rank, os);
    hide DeepFirst;
    var s := Sorting.Sort(DeepFirst, os);
    forall i, j | 0 <= i < j < |s|
      ensures |s[i].path| >= |s[j].path|
    {
      assert rank(s[i]) <= rank(s[j]);
    }
  }

  lemma SortLists(e: Scan, before: (Observed, Observed) -> bool, os: seq<Observed>, fate: Fate, seen: set<Uuid>)
    requires Lists(e, os, fate, seen)
    ensures Lists(e, Sorting.Sort(before, os), fate, seen)
  {
    SortedSame(before, os);
    hide FateOf, IdsDistinct;
  }

  lemma SortRemoved(e: Scan, before: (Observed, Observed) -> bool, os: seq<Observed>, seen: set<Uuid>)
    requires ListsRemoved(e, os, seen)
    ensures ListsRemoved(e, Sorting.Sort(before, os), seen)
  {
    SortedSame(before, os);
    hide Removed, IdsDistinct;
  }

  // ---------------------------------------------------------------- emitting creates

  ghost predicate LegalCreates(e: Scan, v: View, os: seq<Observed>, n: nat)
    requires n <= |os|
  {
    forall j :: 0 <= j < n && os[j].id !in e.oversize ==> LegalCreate(e, v, os[j])
  }

  ghost predicate LegalChanges(e: Scan, v: View, os: seq<Observed>, n: nat)
    requires n <= |os|
  {
    forall j :: 0 <= j < n ==> LegalChange(e, v, os[j])
  }

  /** The batch can be replayed exactly if it is legal, and then shows every object handled so far. */
  ghost predicate Viewed(e: Scan, v: View, ms: seq<Mutation>, done: set<Uuid>, legal: bool) {
    (Play(v, ms).Some? <==> legal) && (legal ==> Shown(e, v, Play(v, ms).value, done))
  }

  ghost predicate OpsKnown(e: Scan, v: View, kept: seq<Mutation>, done: set<Uuid>, ops: map<Uuid, Uuid>) {
    forall p :: p in ops ==> p in done && HasKept(kept, ops[p]) && Final(e, v, p).Some?
  }

  lemma ViewedCreate(e: Scan, v: View, ms: seq<Mutation>, done: set<Uuid>, legal: bool, o: Observed, op: Uuid,
                     d: Option<Uuid>)
    requires ProjectedView(e, v) && Viewed(e, v, ms, done, legal) && OnlyNew(e, done) && o.id !in done
    requires o.id in e.current && e.current[o.id] == o && FateOf(e, o) == MakeNew && o.id !in e.oversize
             && Placeable(e, v, done, o)
    ensures Viewed(e, v, ms + [CreateOp(o, op, d)], done + {o.id}, legal && LegalCreate(e, v, o))
  {
    hide *;
    ViewedIs(e, v, ms, done, legal);
    ViewedIs(e, v, ms + [CreateOp(o, op, d)], done + {o.id}, legal && LegalCreate(e, v, o));
    PlayLast(v, ms, CreateOp(o, op, d));
    if legal {
      CreateShown(e, v, Play(v, ms).value, done, o, op, d);
    }
  }

  lemma ViewedIs(e: Scan, v: View, ms: seq<Mutation>, done: set<Uuid>, legal: bool)
    ensures Viewed(e, v, ms, done, legal)
            <==> (Play(v, ms).Some? <==> legal) && (legal ==> Shown(e, v, Play(v, ms).value, done))
  {
    hide Play, Shown;
  }

  lemma ViewedSkip(e: Scan, v: View, ms: seq<Mutation>, done: set<Uuid>, legal: bool, o: Observed)
    requires ProjectedView(e, v) && Viewed(e, v, ms, done, legal) && o.id !in done
    requires o.id in e.current && e.current[o.id] == o && FateOf(e, o) == MakeNew && o.id in e.oversize
    ensures Viewed(e, v, ms, done + {o.id}, legal)
  {
    hide *;
    ViewedIs(e, v, ms, done, legal);
    ViewedIs(e, v, ms, done + {o.id}, legal);
    if legal {
      SkippedShown(e, v, Play(v, ms).value, done, o);
    }
  }

  lemma LegalNext(e: Scan, v: View, os: seq<Observed>, n: nat)
    requires n < |os|
    ensures LegalCreates(e, v, os, n + 1)
            <==> LegalCreates(e, v, os, n) && (os[n].id !in e.oversize ==> LegalCreate(e, v, os[n]))
    ensures LegalChanges(e, v, os, n + 1) <==> LegalChanges(e, v, os, n) && LegalChange(e, v, os[n])
    ensures LegalCreates(e, v, os, 0) && LegalChanges(e, v, os, 0)
  {
    hide LegalCreate, LegalChange;
  }

  lemma NothingEmitted(e: Scan, v: View, gen: nat -> Uuid, os: seq<Observed>)
    ensures Batched(e, gen, 0, [], [], {}) && Viewed(e, v, [], {}, LegalCreates(e, v, os, 0)) && OnlyNew(e, {})
            && IdsOf(os, 0) == {}
    ensures OpsKnown(e, v, [], {}, map[])
  {
    NothingTame(e.s);
    hide LegalCreate, Final, At, Tame, Clean;
  }

  lemma {:induction false} IdsAre(os: seq<Observed>, n: nat, id: Uuid)
    requires n <= |os|
    ensures id in IdsOf(os, n) <==> exists j :: 0 <= j < n && os[j].id == id
  {
    if n > 0 {
      IdsAre(os, n - 1, id);
    }
  }

  lemma IdsNext(os: seq<Observed>, n: nat)
    requires n < |os| && IdsDistinct(os)
    ensures os[n].id !in IdsOf(os, n) && IdsOf(os, n + 1) == IdsOf(os, n) + {os[n].id}
  {
    IdsAre(os, n, os[n].id);
  }

  lemma Listed(e: Scan, os: seq<Observed>, fate: Fate, seen: set<Uuid>, n: nat)
    requires Lists(e, os, fate, seen) && n < |os|
    ensures IdsDistinct(os) && os[n].id in e.current && e.current[os[n].id] == os[n] && FateOf(e, os[n]) == fate
  {
    hide FateOf, IdsDistinct;
    assert os[n] in os;
  }

  lemma OnlyNewNext(e: Scan, v: View, done: set<Uuid>, o: Observed)
    requires OnlyNew(e, done) && FateOf(e, o) == MakeNew
    ensures OnlyNew(e, done + {o.id}) && !Durable(e.s, o.id)
  {
    FateIs(e, o);
    hide FateOf, Durable;
  }

  lemma OpsKnownNext(e: Scan, v: View, kept: seq<Mutation>, m: Mutation, done: set<Uuid>, ops: map<Uuid, Uuid>,
                     o: Observed)
    requires OpsKnown(e, v, kept, done, ops) && m.obj == o.id && Final(e, v, o.id).Some?
    ensures OpsKnown(e, v, kept + [m], done + {o.id}, ops[o.id := m.op])
  {
    KeepsHaving(kept, m);
    HasNext(kept, m, m.op);
    hide HasKept, Final;
  }

  lemma OpsKnownSkip(e: Scan, v: View, kept: seq<Mutation>, done: set<Uuid>, ops: map<Uuid, Uuid>, id: Uuid)
    requires OpsKnown(e, v, kept, done, ops)
    ensures OpsKnown(e, v, kept, done + {id}, ops)
  {
    hide HasKept, Final;
  }

  lemma OpsKnownAt(e: Scan, v: View, kept: seq<Mutation>, done: set<Uuid>, ops: map<Uuid, Uuid>, p: Uuid)
    requires OpsKnown(e, v, kept, done, ops) && p in ops
    ensures p in done && HasKept(kept, ops[p]) && Final(e, v, p).Some?
  {
    hide HasKept, Final;
  }

  lemma PlaceableIf(e: Scan, v: View, done: set<Uuid>, o: Observed)
    requires o.parent == NIL || Durable(e.s, o.parent) || (o.parent in done && Final(e, v, o.parent).Some?)
    ensures Placeable(e, v, done, o)
  {
    hide Durable, Final;
  }

  lemma WaitableIf(e: Scan, kept: seq<Mutation>, d: Option<Uuid>)
    requires d.Some? ==> (ValidOperationId(d.value) && QueuedOp(e.s, d.value)) || HasKept(kept, d.value)
    ensures Waitable(e, kept, d)
  {
    hide ValidOperationId, QueuedOp, HasKept;
  }

  lemma LastMeansDurable(s: State, o: Uuid)
    ensures Last(s, o).Some? ==> Durable(s, o)
  {
    LastCounted(s, o, |s.rows|);
  }

  lemma {:induction false} LastCounted(s: State, o: Uuid, n: nat)
    requires n <= |s.rows|
    ensures LastQueued(s, o, n).Some? <==> Count(s, o, n) > 0
  {
    if n > 0 {
      LastCounted(s, o, n - 1);
    }
  }

  lemma LastIs(s: State, o: Uuid)
    ensures Last(s, o) == LastQueued(s, o, |s.rows|)
  {
    hide LastQueued;
  }

  lemma FolderOpIs(e: Scan, o: Observed, ops: map<Uuid, Uuid>)
    ensures FolderOp(e, o, ops)
            == if o.parent == NIL then None else if o.parent in ops then Some(ops[o.parent]) else Last(e.s, o.parent)
  {
    hide Last;
  }

  /** The operation a new object waits for: the create of its folder if that is in this batch, and otherwise the last
      one queued for the folder, if any; fails where the folder is unknown to the server and not new in this batch. */
  method CreateDependency(e: Scan, o: Observed, ops: map<Uuid, Uuid>, ghost v: View, ghost kept: seq<Mutation>,
                          ghost done: set<Uuid>)
    returns (ok: bool, d: Option<Uuid>)
    requires StoreOk(e.s) && OpsKnown(e, v, kept, done, ops)
    ensures ok ==> Placeable(e, v, done, o) && Waitable(e, kept, d)
    ensures ok <==> o.parent == NIL || o.parent in ops || (ProjectionOk(e.s, o.parent) && Durable(e.s, o.parent))
    ensures ok ==> d == FolderOp(e, o, ops)
  {
    hide *;
    d := None;
    FolderOpIs(e, o, ops);
    if o.parent != NIL {
      if o.parent in ops {
        OpsKnownAt(e, v, kept, done, ops, o.parent);
        d := Some(ops[o.parent]);
      } else {
        var readable, revision, last, durable := Store.Projection(e.s, o.parent);
        if !readable {
          return false, d;
        }
        StoreIs(e.s, o.parent);
        LastMeansDurable(e.s, o.parent);
        LastIs(e.s, o.parent);
        if last.Some? {
          LastKnown(e.s, o.parent);
          d := last;
        } else if !durable {
          return false, d;
        }
      }
    }
    PlaceableIf(e, v, done, o);
    WaitableIf(e, kept, d);
    ok := true;
  }

  lemma FinalNewIs(e: Scan, v: View, o: Observed)
    requires o.id in e.current && e.current[o.id] == o && FateOf(e, o) == MakeNew && o.id !in e.oversize
    ensures Final(e, v, o.id).Some?
  {
    hide *;
    FinalNew(e, v, o);
  }

  /** Shallower paths come first. */
  ghost predicate TopDown(os: seq<Observed>) {
    forall i, j :: 0 <= i < j < |os| ==> |os[i].path| <= |os[j].path|
  }

  lemma ShallowFirstSorts(os: seq<Observed>)
    ensures TopDown(Sorting.Sort(ShallowFirst, os))
  {
    var rank := (o: Observed) => |o.path| as int;
    hide Less, Joined;
    assert Sorting.Agrees(ShallowFirst, rank);
    Sorting.SortRanked(ShallowFirst, rank, os);
    hide ShallowFirst;
    var s := Sorting.Sort(ShallowFirst, os);
    forall i, j | 0 <= i < j < |s|
      ensures |s[i].path| <= |s[j].path|
    {
      assert rank(s[i]) <= rank(s[j]);
    }
  }

  /** A folder's path is shorter than the paths of what it holds. */
  ghost predicate NestedPaths(e: Scan) {
    forall id :: id in e.current && e.current[id].parent in e.current ==>
      |e.current[e.current[id].parent].path| < |e.current[id].path|
  }

  /** The new object's folder is the vault root, new itself, or known to the queue, and its bytes can be staged. */
  predicate Creatable(e: Scan, o: Observed) {
    && (o.parent == NIL || CreatedHere(e, o.parent) || (ProjectionOk(e.s, o.parent) && Durable(e.s, o.parent)))
    && (o.otype == Note && o.id !in e.oversize ==> o.id !in e.unreadable)
  }

  predicate CreatedHere(e: Scan, id: Uuid) {
    id in e.current && FateOf(e, e.current[id]) == MakeNew && id !in e.oversize
  }

  ghost predicate AllCreatable(e: Scan, os: seq<Observed>, n: nat)
    requires n <= |os|
  {
    forall j :: 0 <= j < n ==> Creatable(e, os[j])
  }

  ghost predicate OpsComplete(e: Scan, os: seq<Observed>, n: nat, ops: map<Uuid, Uuid>)
    requires n <= |os|
  {
    forall j :: 0 <= j < n && os[j].id !in e.oversize ==> os[j].id in ops
  }

  lemma NothingComplete(e: Scan, os: seq<Observed>)
    ensures OpsComplete(e, os, 0, map[]) && AllCreatable(e, os, 0)
  {
  }

  lemma OpsCompleteNext(e: Scan, os: seq<Observed>, n: nat, ops: map<Uuid, Uuid>, op: Uuid)
    requires n < |os| && OpsComplete(e, os, n, ops)
    ensures OpsComplete(e, os, n + 1, ops[os[n].id := op])
    ensures os[n].id in e.oversize ==> OpsComplete(e, os, n + 1, ops)
  {
  }

  lemma CreatableNext(e: Scan, os: seq<Observed>, n: nat)
    requires n < |os|
    ensures AllCreatable(e, os, n + 1) <==> AllCreatable(e, os, n) && Creatable(e, os[n])
    ensures !Creatable(e, os[n]) ==> !AllCreatable(e, os, |os|)
    ensures Creatable(e, os[n]) <==>
            (os[n].parent == NIL || CreatedHere(e, os[n].parent)
             || (ProjectionOk(e.s, os[n].parent) && Durable(e.s, os[n].parent)))
            && (os[n].otype == Note && os[n].id !in e.oversize ==> os[n].id !in e.unreadable)
  {
    hide CreatedHere, ProjectionOk, Durable;
  }

  lemma CreatedListed(e: Scan, os: seq<Observed>, id: Uuid) returns (j: nat)
    requires ScanOk(e) && Lists(e, os, MakeNew, e.current.Keys) && CreatedHere(e, id)
    ensures j < |os| && os[j] == e.current[id] && os[j].id == id && id !in e.oversize
  {
    hide FateOf, ObservedOk, IdsDistinct;
    assert e.current[id] in os;
    j :| 0 <= j < |os| && os[j] == e.current[id];
  }

  /** A new folder's create is known by the time what it holds is created. */
  lemma CreatableBy(e: Scan, v: View, kept: seq<Mutation>, os: seq<Observed>, n: nat, ops: map<Uuid, Uuid>)
    requires ScanOk(e) && Lists(e, os, MakeNew, e.current.Keys) && TopDown(os) && n < |os|
    requires OpsComplete(e, os, n, ops) && OpsKnown(e, v, kept, IdsOf(os, n), ops)
    ensures NestedPaths(e) && CreatedHere(e, os[n].parent) ==> os[n].parent in ops
    ensures os[n].parent in ops ==> CreatedHere(e, os[n].parent)
  {
    var p := os[n].parent;
    hide *;
    Listed(e, os, MakeNew, e.current.Keys, n);
    if NestedPaths(e) && CreatedHere(e, p) {
      var j := CreatedListed(e, os, p);
      EarlierInOrder(e, os, j, n);
      CompleteAt(e, os, n, ops, j);
    }
    if p in ops {
      OpsKnownAt(e, v, kept, IdsOf(os, n), ops, p);
      IdsAre(os, n, p);
      var j :| 0 <= j < n && os[j].id == p;
      Listed(e, os, MakeNew, e.current.Keys, j);
      FinalNew(e, v, os[j]);
      CreatedHereIf(e, p);
    }
  }

  lemma CreatedHereIf(e: Scan, id: Uuid)
    requires id in e.current && FateOf(e, e.current[id]) == MakeNew && id !in e.oversize
    ensures CreatedHere(e, id)
  {
    hide FateOf;
  }

  lemma CompleteAt(e: Scan, os: seq<Observed>, n: nat, ops: map<Uuid, Uuid>, j: nat)
    requires n <= |os| && OpsComplete(e, os, n, ops) && j < n && os[j].id !in e.oversize
    ensures os[j].id in ops
  {
  }

  lemma EarlierInOrder(e: Scan, os: seq<Observed>, j: nat, n: nat)
    requires NestedPaths(e) && TopDown(os) && j < |os| && n < |os|
    requires os[n].id in e.current && e.current[os[n].id] == os[n] && os[n].parent in e.current
             && os[j] == e.current[os[n].parent]
    ensures j < n
  {
    assert |os[j].path| < |os[n].path|;
  }

  /** A note that would be captured, but is too large to be staged. */
  predicate TooLarge(e: Scan, o: Observed) {
    o.otype == Note && o.id in e.oversize && (FateOf(e, o) == MakeNew || (FateOf(e, o) == Follow && Changed(e, o)))
  }

  function Skipped(e: Scan, os: seq<Observed>, n: nat): seq<Path>
    requires n <= |os|
  {
    if n == 0 then [] else Skipped(e, os, n - 1) + (if TooLarge(e, os[n - 1]) then [os[n - 1].path] else [])
  }

  lemma SkippedNext(e: Scan, os: seq<Observed>, n: nat)
    requires n < |os|
    ensures Skipped(e, os, 0) == []
    ensures Skipped(e, os, n + 1) == Skipped(e, os, n) + (if TooLarge(e, os[n]) then [os[n].path] else [])
  {
    hide TooLarge;
  }

  lemma NothingSkipped(e: Scan, os: seq<Observed>)
    ensures Skipped(e, os, 0) == []
  {
  }

  lemma TooLargeIs(e: Scan, o: Observed)
    ensures FateOf(e, o) == MakeNew ==> (TooLarge(e, o) <==> o.otype == Note && o.id in e.oversize)
    ensures FateOf(e, o) == Follow ==> (TooLarge(e, o) <==> Changed(e, o) && o.id in e.oversize)
  {
    hide FateOf;
  }

  predicate ListsSkipped(e: Scan, os: seq<Observed>, n: nat, p: Path)
    requires n <= |os|
  {
    exists j :: 0 <= j < n && TooLarge(e, os[j]) && os[j].path == p
  }

  /** The path is that of a note that would be captured and is too large. */
  predicate SkippedPath(e: Scan, p: Path) {
    exists id :: id in e.current && TooLarge(e, e.current[id]) && e.current[id].path == p
  }

  lemma {:induction false} SkippedHas(e: Scan, os: seq<Observed>, n: nat, p: Path)
    requires n <= |os|
    ensures p in Skipped(e, os, n) <==> ListsSkipped(e, os, n, p)
  {
    hide TooLarge;
    if n > 0 {
      SkippedHas(e, os, n - 1, p);
    }
  }

  predicate Reported(e: Scan, skipped: seq<Path>, p: Path) {
    p in skipped <==> SkippedPath(e, p)
  }

  /** Exactly the paths of the notes that are too large. */
  ghost predicate SkippedExactly(e: Scan, skipped: seq<Path>) {
    forall p :: Reported(e, skipped, p)
  }

  lemma ReportedIs(e: Scan, a: seq<Path>, b: seq<Path>, p: Path)
    ensures Reported(e, a + b, p) <==> (p in a || p in b <==> SkippedPath(e, p))
  {
    hide SkippedPath;
  }

  lemma AllSkipped(e: Scan, creates: seq<Observed>, changes: seq<Observed>)
    requires ScanOk(e) && Lists(e, creates, MakeNew, e.current.Keys) && Lists(e, changes, Follow, e.current.Keys)
    ensures SkippedExactly(e, Skipped(e, creates, |creates|) + Skipped(e, changes, |changes|))
  {
    var a, b := Skipped(e, creates, |creates|), Skipped(e, changes, |changes|);
    forall p
      ensures Reported(e, a + b, p)
    {
      hide *;
      SkippedHas(e, creates, |creates|, p);
      SkippedHas(e, changes, |changes|, p);
      SkippedBoth(e, creates, changes, p);
      ReportedIs(e, a, b, p);
    }
    hide Lists, ScanOk, Reported, Skipped;
  }

  lemma SkippedBoth(e: Scan, creates: seq<Observed>, changes: seq<Observed>, p: Path)
    requires ScanOk(e) && Lists(e, creates, MakeNew, e.current.Keys) && Lists(e, changes, Follow, e.current.Keys)
    ensures ListsSkipped(e, creates, |creates|, p) || ListsSkipped(e, changes, |changes|, p) <==> SkippedPath(e, p)
  {
    hide ObservedOk, IdsDistinct, Considered, Durable, Changed;
    if id :| id in e.current && TooLarge(e, e.current[id]) && e.current[id].path == p {
      var o := e.current[id];
      if FateOf(e, o) == MakeNew {
        assert o in creates;
        var j :| 0 <= j < |creates| && creates[j] == o;
      } else {
        assert o in changes;
        var j :| 0 <= j < |changes| && changes[j] == o;
      }
    }
    if j :| 0 <= j < |creates| && TooLarge(e, creates[j]) && creates[j].path == p {
      assert creates[j] in creates;
    }
    if j :| 0 <= j < |changes| && TooLarge(e, changes[j]) && changes[j].path == p {
      assert changes[j] in changes;
    }
  }

  predicate NoDeletes(ms: seq<Mutation>) {
    forall i :: 0 <= i < |ms| ==> ms[i].kind != Delete
  }

  lemma NoDeletesNone()
    ensures NoDeletes([])
  {
  }

  lemma NoDeletesNext(ms: seq<Mutation>, out: seq<Mutation>)
    requires NoDeletes(ms) && forall i :: 0 <= i < |out| ==> out[i].kind != Delete
    ensures NoDeletes(ms + out)
  {
  }

  /** Creates for the new objects, parents first. */
  method EmitCreates(e: Scan, gen: nat -> Uuid, creates: seq<Observed>, ghost v: View)
    returns (ok: bool, ms: seq<Mutation>, k: nat, skipped: seq<Path>, ghost kept: seq<Mutation>)
    requires StoreOk(e.s) && FreshIds(e.s, gen) && ScanOk(e) && ProjectedView(e, v)
             && Lists(e, creates, MakeNew, e.current.Keys)
    requires TopDown(creates)
    ensures NestedPaths(e) ==> (ok <==> AllCreatable(e, creates, |creates|))
    ensures ok ==> Batched(e, gen, k, ms, kept, IdsOf(creates, |creates|)) && OnlyNew(e, IdsOf(creates, |creates|))
    ensures ok ==> Viewed(e, v, ms, IdsOf(creates, |creates|), LegalCreates(e, v, creates, |creates|)) && NoDeletes(ms)
    ensures ok ==> Waiting(e, ms) && kept == ms && skipped == Skipped(e, creates, |creates|)
  {
    hide *;
    ms, k, skipped, kept := [], 0, [], [];
    NothingSkipped(e, creates);
    NothingWaits(e);
    NothingListed();
    var ops: map<Uuid, Uuid> := map[];
    NothingEmitted(e, v, gen, creates);
    NoDeletesNone();
    NothingComplete(e, creates);
    for i := 0 to |creates|
      invariant Batched(e, gen, k, ms, kept, IdsOf(creates, i)) && OnlyNew(e, IdsOf(creates, i))
      invariant Viewed(e, v, ms, IdsOf(creates, i), LegalCreates(e, v, creates, i))
      invariant OpsKnown(e, v, kept, IdsOf(creates, i), ops) && NoDeletes(ms)
      invariant OpsComplete(e, creates, i, ops) && (NestedPaths(e) ==> AllCreatable(e, creates, i))
      invariant Waiting(e, ms) && Listing(ms, ops) && kept == ms && skipped == Skipped(e, creates, i)
    {
      var o := creates[i];
      ghost var done := IdsOf(creates, i);
      Listed(e, creates, MakeNew, e.current.Keys, i);
      ScanAt(e, o.id);
      IdsNext(creates, i);
      LegalNext(e, v, creates, i);
      OnlyNewNext(e, v, done, o);
      SkippedNext(e, creates, i);
      TooLargeIs(e, o);
      var op := gen(k);
      k := k + 1;
      CreatableNext(e, creates, i);
      CreatableBy(e, v, kept, creates, i, ops);
      OpsCompleteNext(e, creates, i, ops, op);
      var placed, d := CreateDependency(e, o, ops, v, kept, done);
      if !placed {
        return false, [], 0, [], [];
      }
      if o.otype == Note && o.id in e.oversize {
        skipped := skipped + [o.path];
        AlsoDone(e, gen, k - 1, k, ms, kept, done, o.id);
        ViewedSkip(e, v, ms, done, LegalCreates(e, v, creates, i), o);
        OpsKnownSkip(e, v, kept, done, ops, o.id);
        continue;
      }
      if o.otype == Note && o.id in e.unreadable {
        return false, [], 0, [], [];
      }
      CreateAccepted(e, gen, k - 1, ms, kept, done, o, d);
      ViewedCreate(e, v, ms, done, LegalCreates(e, v, creates, i), o, op, d);
      CreateOpIs(o, op, d);
      FinalNewIs(e, v, o);
      OpsKnownNext(e, v, kept, CreateOp(o, op, d), done, ops, o);
      NoDeletesNext(ms, [CreateOp(o, op, d)]);
      if o.id in ops {
        OpsKnownAt(e, v, kept, done, ops, o.id);
        assert false;
      }
      WaitingCreate(e, ms, ops, o, op);
      ListingNext(ms, ops, CreateOp(o, op, d));
      ms, ops := ms + [CreateOp(o, op, d)], ops[o.id := op];
      kept := kept + [CreateOp(o, op, d)];
    }
    ok := true;
  }

  // ---------------------------------------------------------------- emitting moves and updates

  lemma AdditionalIs(e: Scan, o: Observed)
    ensures Additional(e, o)
            == if o.parent != NIL && Last(e.s, o.parent).Some? && Last(e.s, o.parent) != Last(e.s, o.id)
                                then [Last(e.s, o.parent).value] else []
  {
    hide LastQueued;
  }

  lemma ReachableIs(e: Scan, o: Observed)
    ensures Reachable(e, o) <==> (Moved(e, o) && o.parent != NIL ==> Durable(e.s, o.parent))
  {
    hide Moved, Durable;
  }

  lemma MovedIs(e: Scan, o: Observed)
    ensures Moved(e, o) <==> Earlier(e, o.id).parent != o.parent || NameOf(Earlier(e, o.id)) != NameOf(o)
    ensures Changed(e, o) <==> o.otype == Note && Earlier(e, o.id).hash != o.hash
  {
    hide Earlier, NameOf;
  }

  /** The folder something was moved to is known to the server or to the queue, which one created in the same scan is
      not; and the bytes of a changed note can be staged. */
  predicate Emittable(e: Scan, o: Observed) {
    && (Moved(e, o) && o.parent != NIL ==> ProjectionOk(e.s, o.parent) && Durable(e.s, o.parent))
    && (Changed(e, o) ==> o.id in e.oversize || o.id !in e.unreadable)
  }

  lemma EmittableIs(e: Scan, o: Observed)
    ensures Emittable(e, o) <==> (Moved(e, o) && o.parent != NIL ==>
                                    ProjectionOk(e.s, o.parent) && Durable(e.s, o.parent))
                                 && (Changed(e, o) ==> o.id in e.oversize || o.id !in e.unreadable)
  {
    hide Moved, Changed, ProjectionOk, Durable;
  }

  ghost predicate AllEmittable(e: Scan, os: seq<Observed>, n: nat)
    requires n <= |os|
  {
    forall j :: 0 <= j < n ==> Emittable(e, os[j])
  }

  lemma EmittableNext(e: Scan, os: seq<Observed>, n: nat)
    requires n < |os|
    ensures AllEmittable(e, os, n + 1) <==> AllEmittable(e, os, n) && Emittable(e, os[n])
    ensures !Emittable(e, os[n]) ==> !AllEmittable(e, os, |os|)
  {
    hide Emittable;
  }

  /** A move if the place differs and an update if the bytes do, the second on top of the first. */
  method EmitChange(e: Scan, gen: nat -> Uuid, k: nat, o: Observed)
    returns (ok: bool, out: seq<Mutation>, n: nat, tooLarge: bool)
    requires ProjectionOk(e.s, o.id)
    ensures ok ==> out == Moves(e, gen, k, o) + Updates(e, gen, k, o) && n == k + Drawn(e, o) && Reachable(e, o)
    ensures ok ==> (tooLarge <==> Changed(e, o) && o.id in e.oversize)
                   && forall i :: 0 <= i < |out| ==> out[i].kind != Delete && out[i].kind != Create
    ensures ok <==> Emittable(e, o)
  {
    hide *;
    OpsAre(e, gen, k, o);
    MovedIs(e, o);
    EmittableIs(e, o);
    ReachableIs(e, o);
    AdditionalIs(e, o);
    LastIs(e.s, o.id);
    LastIs(e.s, o.parent);
    LastMeansDurable(e.s, o.parent);
    out, n, tooLarge := [], k, false;
    var readable, base, dependency, durable := Store.Projection(e.s, o.id);
    var before := Earlier(e, o.id);
    if before.parent != o.parent || NameOf(before) != NameOf(o) {
      var op := gen(n);
      n := n + 1;
      var additional: seq<Uuid> := [];
      if o.parent != NIL {
        var known, revision, last, there := Store.Projection(e.s, o.parent);
        if !known {
          return false, [], k, false;
        }
        if last.Some? && (dependency == None || dependency != last) {
          additional := [last.value];
        } else if !there && last == None {
          return false, [], k, false;
        }
      }
      MoveOpIs(o, op, base, dependency, additional);
      out := [MoveOp(o, op, base, dependency, additional)];
      dependency, base := Some(op), base + 1;
    }
    if o.otype == Note && before.hash != o.hash {
      var op := gen(n);
      n := n + 1;
      if o.id in e.oversize {
        return true, out, n, true;
      }
      if o.id in e.unreadable {
        return false, [], k, false;
      }
      UpdateOpIs(o, op, base, dependency);
      out := out + [UpdateOp(o, op, base, dependency)];
    }
    ok := true;
  }

  ghost predicate RoomFor(e: Scan, os: seq<Observed>, n: nat)
    requires n <= |os|
  {
    forall j :: 0 <= j < n ==> HasRoom(e, os[j])
  }

  lemma RoomNext(e: Scan, os: seq<Observed>, n: nat)
    requires n < |os|
    ensures RoomFor(e, os, n + 1) <==> RoomFor(e, os, n) && HasRoom(e, os[n])
    ensures RoomFor(e, os, 0)
  {
    hide HasRoom;
  }

  lemma FoldersStart(e: Scan, v: View, done: set<Uuid>)
    requires OnlyNew(e, done)
    ensures KeepsFolders(e, v, done)
  {
    hide Durable, Final;
  }

  lemma ViewedChange(e: Scan, gen: nat -> Uuid, k: nat, v: View, ms: seq<Mutation>, done: set<Uuid>, legal: bool,
                     o: Observed)
    requires Viewed(e, v, ms, done, legal) && KeepsFolders(e, v, done) && o.id !in done
    requires o.id in e.current && e.current[o.id] == o && FateOf(e, o) == Follow && Reachable(e, o)
    ensures Viewed(e, v, ms + Moves(e, gen, k, o) + Updates(e, gen, k, o), done + {o.id}, legal && LegalChange(e, v, o))
    ensures KeepsFolders(e, v, done + {o.id})
  {
    hide *;
    var all := ms + Moves(e, gen, k, o) + Updates(e, gen, k, o);
    ViewedIs(e, v, ms, done, legal);
    ViewedIs(e, v, all, done + {o.id}, legal && LegalChange(e, v, o));
    FinalFollow(e, v, o);
    FoldersNext(e, v, done, o);
    if legal {
      ChangeShown(e, gen, k, v, ms, Play(v, ms).value, done, o);
    } else {
      ChangeApplied(e, gen, k, v, o);
      PlayTwo(v, ms, Moves(e, gen, k, o), Updates(e, gen, k, o));
    }
  }

  /** Accepted so far if there was room for every change; refused otherwise. */
  ghost predicate Judged(e: Scan, gen: nat -> Uuid, k: nat, ms: seq<Mutation>, kept: seq<Mutation>, done: set<Uuid>,
                         room: bool) {
    if room then Batched(e, gen, k, ms, kept, done) else EnqueueAll(Running(e.s, {}), ms) == Failed
  }

  lemma JudgedIs(e: Scan, gen: nat -> Uuid, k: nat, ms: seq<Mutation>, kept: seq<Mutation>, done: set<Uuid>, room: bool)
    ensures Judged(e, gen, k, ms, kept, done, room)
            <==> if room then Batched(e, gen, k, ms, kept, done) else EnqueueAll(Running(e.s, {}), ms) == Failed
  {
    hide Batched, EnqueueAll;
  }

  lemma JudgedChange(e: Scan, gen: nat -> Uuid, k: nat, ms: seq<Mutation>, kept: seq<Mutation>, done: set<Uuid>,
                     room: bool, o: Observed)
    returns (next: seq<Mutation>)
    requires FreshIds(e.s, gen) && Judged(e, gen, k, ms, kept, done, room) && o.id !in done && Followable(e, o)
    ensures Judged(e, gen, k + Drawn(e, o), ms + Moves(e, gen, k, o) + Updates(e, gen, k, o), next, done + {o.id},
                   room && HasRoom(e, o)) && kept <= next
  {
    hide *;
    var all := ms + Moves(e, gen, k, o) + Updates(e, gen, k, o);
    next := kept;
    JudgedIs(e, gen, k, ms, kept, done, room);
    if !room {
      RefusedForGood(e.s, ms, Moves(e, gen, k, o));
      RefusedForGood(e.s, ms + Moves(e, gen, k, o), Updates(e, gen, k, o));
    } else if HasRoom(e, o) {
      next := ChangeAccepted(e, gen, k, ms, kept, done, o);
    } else {
      ChangeRefused(e, gen, k, ms, o);
    }
    JudgedIs(e, gen, k + Drawn(e, o), all, next, done + {o.id}, room && HasRoom(e, o));
  }

  lemma FollowableIf(e: Scan, o: Observed)
    requires StoreOk(e.s) && ObservedOk(o) && Durable(e.s, o.id) && ProjectionOk(e.s, o.id)
    ensures Followable(e, o)
  {
    hide StoreOk, ObservedOk, Durable, ProjectionOk;
  }

  lemma ReadableAt(e: Scan, seen: set<Uuid>, id: Uuid)
    requires Readable(e, seen) && id in seen && id in e.current && FateOf(e, e.current[id]) != Ignore
    ensures ProjectionOk(e.s, id)
  {
    FateIs(e, e.current[id]);
    hide Considered, ProjectionOk, FateOf, Durable;
  }

  lemma FollowNotNew(e: Scan, done: set<Uuid>, o: Observed)
    requires OnlyNew(e, done) && FateOf(e, o) == Follow
    ensures o.id !in done && Durable(e.s, o.id)
  {
    FateIs(e, o);
    hide FateOf, Durable;
  }

  /** Moves and updates for the followed objects, in path order. */
  method EmitChanges(e: Scan, gen: nat -> Uuid, changes: seq<Observed>, batch: seq<Mutation>, from: nat, ghost v: View,
                     ghost queued: seq<Mutation>, ghost created: set<Uuid>, ghost legal: bool)
    returns (ok: bool, ms: seq<Mutation>, k: nat, skipped: seq<Path>, ghost kept: seq<Mutation>)
    requires StoreOk(e.s) && FreshIds(e.s, gen) && ScanOk(e) && Lists(e, changes, Follow, e.current.Keys)
             && Readable(e, e.current.Keys)
    requires Batched(e, gen, from, batch, queued, created) && OnlyNew(e, created)
             && Viewed(e, v, batch, created, legal) && NoDeletes(batch)
    requires Waiting(e, batch) && CreatesQueued(batch, queued)
    ensures ok ==> Waiting(e, ms) && CreatesQueued(ms, kept) && skipped == Skipped(e, changes, |changes|)
    ensures ok <==> AllEmittable(e, changes, |changes|)
    ensures ok ==> Judged(e, gen, k, ms, kept, created + IdsOf(changes, |changes|), RoomFor(e, changes, |changes|))
    ensures ok ==> Viewed(e, v, ms, created + IdsOf(changes, |changes|),
                          legal && LegalChanges(e, v, changes, |changes|)) && NoDeletes(ms)
  {
    hide *;
    ms, k, skipped, kept := batch, from, [], queued;
    JudgedIs(e, gen, k, ms, kept, created, true);
    FoldersStart(e, v, created);
    NothingChanged(e, v, changes);
    NothingSkipped(e, changes);
    assert created + IdsOf(changes, 0) == created;
    for i := 0 to |changes|
      invariant Judged(e, gen, k, ms, kept, created + IdsOf(changes, i), RoomFor(e, changes, i))
      invariant Viewed(e, v, ms, created + IdsOf(changes, i), legal && LegalChanges(e, v, changes, i))
      invariant KeepsFolders(e, v, created + IdsOf(changes, i)) && NoDeletes(ms) && AllEmittable(e, changes, i)
      invariant Waiting(e, ms) && CreatesQueued(ms, kept) && skipped == Skipped(e, changes, i)
    {
      var o := changes[i];
      SkippedNext(e, changes, i);
      TooLargeIs(e, o);
      ghost var done := created + IdsOf(changes, i);
      Listed(e, changes, Follow, e.current.Keys, i);
      ScanAt(e, o.id);
      IdsNext(changes, i);
      LegalNext(e, v, changes, i);
      RoomNext(e, changes, i);
      EmittableNext(e, changes, i);
      FollowNotNew(e, created, o);
      ReadableAt(e, e.current.Keys, o.id);
      FollowableIf(e, o);
      var emitted, out, n, tooLarge := EmitChange(e, gen, k, o);
      if !emitted {
        return false, [], 0, [], [];
      }
      ghost var was := kept;
      kept := JudgedChange(e, gen, k, ms, kept, done, RoomFor(e, changes, i), o);
      WaitingChange(e, gen, k, ms, o);
      CreatesStayQueued(ms, was, out, kept);
      ViewedChange(e, gen, k, v, ms, done, legal && LegalChanges(e, v, changes, i), o);
      assert ms + out == ms + Moves(e, gen, k, o) + Updates(e, gen, k, o);
      assert done + {o.id} == created + IdsOf(changes, i + 1);
      NoDeletesNext(ms, out);
      ms, k := ms + out, n;
      if tooLarge {
        skipped := skipped + [o.path];
      }
    }
    ok := true;
  }

  lemma NothingChanged(e: Scan, v: View, os: seq<Observed>)
    ensures IdsOf(os, 0) == {} && RoomFor(e, os, 0) && LegalChanges(e, v, os, 0) && AllEmittable(e, os, 0)
  {
  }

  // ---------------------------------------------------------------- emitting deletes

  ghost predicate LastKept(kept: seq<Mutation>, last: Option<Uuid>) {
    last.Some? ==> HasKept(kept, last.value)
  }

  lemma ViewedDelete(e: Scan, v: View, ms: seq<Mutation>, done: set<Uuid>, legal: bool, o: Observed, op: Uuid,
                     base: nat, d: Option<Uuid>, ds: seq<Uuid>)
    requires ProjectedView(e, v) && Viewed(e, v, ms, done, legal) && o.id !in done && Removed(e, o.id)
    ensures Viewed(e, v, ms + [DeleteOp(o, op, base, d, ds)], done + {o.id}, legal)
  {
    hide *;
    var m := DeleteOp(o, op, base, d, ds);
    ViewedIs(e, v, ms, done, legal);
    ViewedIs(e, v, ms + [m], done + {o.id}, legal);
    PlayLast(v, ms, m);
    if legal {
      DeleteShown(e, v, Play(v, ms).value, done, o, op, base, d, ds);
    }
  }

  lemma JudgedDelete(e: Scan, gen: nat -> Uuid, k: nat, ms: seq<Mutation>, kept: seq<Mutation>, done: set<Uuid>,
                     room: bool, o: Observed, last: Option<Uuid>)
    requires FreshIds(e.s, gen) && Judged(e, gen, k, ms, kept, done, room) && o.id !in done && Followable(e, o)
    requires room ==> LastKept(kept, last)
    ensures var m := DeleteOp(o, gen(k), Projected(e.s, o.id), Last(e.s, o.id), AfterDelete(e, o, last));
            Judged(e, gen, k + 1, ms + [m], kept + [m], done + {o.id}, room)
                && (room ==> LastKept(kept + [m], Some(gen(k))))
  {
    hide *;
    var m := DeleteOp(o, gen(k), Projected(e.s, o.id), Last(e.s, o.id), AfterDelete(e, o, last));
    JudgedIs(e, gen, k, ms, kept, done, room);
    JudgedIs(e, gen, k + 1, ms + [m], kept + [m], done + {o.id}, room);
    LastKeptIs(kept, last);
    LastKeptIs(kept + [m], Some(gen(k)));
    if room {
      DeleteAccepted(e, gen, k, ms, kept, done, o, last);
    } else {
      RefusedForGood(e.s, ms, [m]);
    }
  }

  lemma LastKeptIs(kept: seq<Mutation>, last: Option<Uuid>)
    ensures LastKept(kept, last) <==> (last.Some? ==> HasKept(kept, last.value))
  {
    hide HasKept;
  }

  lemma ListedRemoved(e: Scan, os: seq<Observed>, seen: set<Uuid>, n: nat)
    requires ListsRemoved(e, os, seen) && n < |os|
    ensures IdsDistinct(os) && Removed(e, os[n].id) && os[n].id in e.earlier && e.earlier[os[n].id] == os[n]
  {
    hide Durable, IdsDistinct;
    assert os[n] in os;
  }

  /** Nothing handled before is being deleted. */
  ghost predicate StillCurrent(e: Scan, done: set<Uuid>) {
    forall id :: id in done ==> id in e.current
  }

  lemma NotHandled(e: Scan, done: set<Uuid>, id: Uuid)
    requires StillCurrent(e, done) && Removed(e, id)
    ensures id !in done && Gone(e, id) && Durable(e.s, id)
  {
    hide Durable;
  }

  lemma GoneReadable(e: Scan, seen: set<Uuid>, id: Uuid)
    requires ReadableGone(e, seen) && id in seen && Gone(e, id)
    ensures ProjectionOk(e.s, id)
  {
    hide Gone, ProjectionOk;
  }

  lemma AfterDeleteIs(e: Scan, o: Observed, last: Option<Uuid>)
    ensures AfterDelete(e, o, last)
            == if last.Some? && (Last(e.s, o.id) == None || Last(e.s, o.id) != last) then [last.value] else []
  {
    hide LastQueued;
  }

  /** The batch ends with the deletes of the first n objects, in their order. */
  predicate Tail(ms: seq<Mutation>, batch: seq<Mutation>, deletes: seq<Observed>, n: nat)
    requires n <= |deletes|
  {
    && |ms| == |batch| + n && ms[..|batch|] == batch
    && forall i :: 0 <= i < n ==> DeletesAt(ms, |batch| + i, deletes[i])
  }

  predicate DeletesAt(ms: seq<Mutation>, i: nat, o: Observed) {
    i < |ms| && ms[i].kind == Delete && ms[i].obj == o.id
  }

  lemma TailStart(batch: seq<Mutation>, deletes: seq<Observed>)
    ensures Tail(batch, batch, deletes, 0)
  {
  }

  lemma TailNext(ms: seq<Mutation>, batch: seq<Mutation>, deletes: seq<Observed>, n: nat, m: Mutation)
    requires n < |deletes| && Tail(ms, batch, deletes, n) && m.kind == Delete && m.obj == deletes[n].id
    ensures Tail(ms + [m], batch, deletes, n + 1)
  {
    var all := ms + [m];
    assert all[..|batch|] == batch;
    forall i | 0 <= i < n + 1
      ensures DeletesAt(all, |batch| + i, deletes[i])
    {
      assert i < n ==> DeletesAt(ms, |batch| + i, deletes[i]);
    }
  }

  /** Whatever is deleted is deleted after everything that lay deeper. */
  ghost predicate ChildrenFirst(e: Scan, ms: seq<Mutation>) {
    forall i, j :: 0 <= i < j < |ms| && ms[i].kind == Delete && ms[j].kind == Delete ==>
      ms[i].obj in e.earlier && ms[j].obj in e.earlier && |e.earlier[ms[i].obj].path| >= |e.earlier[ms[j].obj].path|
  }

  lemma DeletesOrdered(e: Scan, ms: seq<Mutation>, batch: seq<Mutation>, deletes: seq<Observed>)
    requires NoDeletes(batch) && Tail(ms, batch, deletes, |deletes|) && BottomUp(deletes)
             && ListsRemoved(e, deletes, e.earlier.Keys)
    ensures ChildrenFirst(e, ms)
  {
    hide Removed, IdsDistinct, NoDeletes, Tail;
    forall i, j | 0 <= i < j < |ms| && ms[i].kind == Delete && ms[j].kind == Delete
      ensures ms[i].obj in e.earlier && ms[j].obj in e.earlier
              && |e.earlier[ms[i].obj].path| >= |e.earlier[ms[j].obj].path|
    {
      var a := TailAt(ms, batch, deletes, i);
      var b := TailAt(ms, batch, deletes, j);
      assert deletes[a] in deletes && deletes[b] in deletes;
      ListedRemoved(e, deletes, e.earlier.Keys, a);
      ListedRemoved(e, deletes, e.earlier.Keys, b);
    }
  }

  lemma TailAt(ms: seq<Mutation>, batch: seq<Mutation>, deletes: seq<Observed>, i: nat) returns (n: nat)
    requires NoDeletes(batch) && Tail(ms, batch, deletes, |deletes|) && i < |ms| && ms[i].kind == Delete
    ensures n < |deletes| && i == |batch| + n && ms[i].obj == deletes[n].id
  {
    BatchPart(ms, batch, i);
    n := i - |batch|;
    hide NoDeletes;
    assert DeletesAt(ms, |batch| + n, deletes[n]);
  }

  lemma BatchPart(ms: seq<Mutation>, batch: seq<Mutation>, i: nat)
    requires NoDeletes(batch) && |batch| <= |ms| && ms[..|batch|] == batch
    ensures i < |batch| ==> ms[i].kind != Delete
  {
    if i < |batch| {
      assert ms[i] == batch[i];
    }
  }

  lemma EndsWithout(batch: seq<Mutation>)
    requires NoDeletes(batch)
    ensures LastDelete(batch) == None
  {
  }

  /** Deletes for the vanished objects, deepest first, each waiting for the one before. */
  method EmitDeletes(e: Scan, gen: nat -> Uuid, deletes: seq<Observed>, batch: seq<Mutation>, from: nat, ghost v: View,
                     ghost queued: seq<Mutation>, ghost handled: set<Uuid>, ghost room: bool, ghost legal: bool)
    returns (ms: seq<Mutation>, k: nat, ghost kept: seq<Mutation>)
    requires StoreOk(e.s) && FreshIds(e.s, gen) && ScanOk(e) && ProjectedView(e, v)
    requires ListsRemoved(e, deletes, e.earlier.Keys) && ReadableGone(e, e.earlier.Keys) && StillCurrent(e, handled)
    requires Judged(e, gen, from, batch, queued, handled, room) && Viewed(e, v, batch, handled, legal)
    requires NoDeletes(batch) && Waiting(e, batch) && CreatesQueued(batch, queued)
    ensures Waiting(e, ms) && CreatesQueued(ms, kept)
    ensures Judged(e, gen, k, ms, kept, handled + IdsOf(deletes, |deletes|), room)
    ensures Viewed(e, v, ms, handled + IdsOf(deletes, |deletes|), legal)
    ensures Tail(ms, batch, deletes, |deletes|)
  {
    hide *;
    ms, k, kept := batch, from, queued;
    var last: Option<Uuid> := None;
    LastKeptIs(kept, last);
    NothingChanged(e, v, deletes);
    TailStart(batch, deletes);
    EndsWithout(batch);
    assert handled + IdsOf(deletes, 0) == handled;
    for i := 0 to |deletes|
      invariant Judged(e, gen, k, ms, kept, handled + IdsOf(deletes, i), room) && (room ==> LastKept(kept, last))
      invariant Viewed(e, v, ms, handled + IdsOf(deletes, i), legal) && Tail(ms, batch, deletes, i)
      invariant Waiting(e, ms) && CreatesQueued(ms, kept) && last == LastDelete(ms)
    {
      var o := deletes[i];
      ghost var done := handled + IdsOf(deletes, i);
      ListedRemoved(e, deletes, e.earlier.Keys, i);
      ScanAt(e, o.id);
      IdsNext(deletes, i);
      NotHandled(e, handled, o.id);
      GoneReadable(e, e.earlier.Keys, o.id);
      FollowableIf(e, o);
      var readable, base, dependency, durable := Store.Projection(e.s, o.id);
      LastIs(e.s, o.id);
      AfterDeleteIs(e, o, last);
      var op := gen(k);
      var additional: seq<Uuid> := [];
      if last.Some? && (dependency == None || dependency != last) {
        additional := [last.value];
      }
      JudgedDelete(e, gen, k, ms, kept, done, room, o, last);
      ViewedDelete(e, v, ms, done, legal, o, op, base, dependency, additional);
      assert done + {o.id} == handled + IdsOf(deletes, i + 1);
      DeleteOpIs(o, op, base, dependency, additional);
      TailNext(ms, batch, deletes, i, DeleteOp(o, op, base, dependency, additional));
      WaitingDelete(e, ms, o, op, base);
      CreatesStayQueued(ms, kept, [DeleteOp(o, op, base, dependency, additional)],
                        kept + [DeleteOp(o, op, base, dependency, additional)]);
      ms, k := ms + [DeleteOp(o, op, base, dependency, additional)], k + 1;
      kept := kept + [DeleteOp(o, op, base, dependency, additional)];
      last := Some(op);
    }
  }

  // ---------------------------------------------------------------- the whole capture

  ghost predicate AllRoom(e: Scan) {
    forall id :: id in e.current && FateOf(e, e.current[id]) == Follow ==> HasRoom(e, e.current[id])
  }

  lemma RoomAll(e: Scan, changes: seq<Observed>)
    requires ScanOk(e) && Lists(e, changes, Follow, e.current.Keys)
    ensures RoomFor(e, changes, |changes|) <==> AllRoom(e)
  {
    hide HasRoom, FateOf, ObservedOk;
    if RoomFor(e, changes, |changes|) {
      forall id | id in e.current && FateOf(e, e.current[id]) == Follow
        ensures HasRoom(e, e.current[id])
      {
        assert e.current[id] in changes;
        var j :| 0 <= j < |changes| && changes[j] == e.current[id];
      }
    }
    if AllRoom(e) {
      forall j | 0 <= j < |changes|
        ensures HasRoom(e, changes[j])
      {
        assert changes[j] in changes;
      }
    }
  }

  lemma LegalAll(e: Scan, v: View, creates: seq<Observed>, changes: seq<Observed>)
    requires ScanOk(e) && Lists(e, creates, MakeNew, e.current.Keys) && Lists(e, changes, Follow, e.current.Keys)
    ensures LegalCreates(e, v, creates, |creates|) && LegalChanges(e, v, changes, |changes|) <==> Legal(e, v)
  {
    hide LegalCreate, LegalChange, FateOf, ObservedOk;
    if LegalCreates(e, v, creates, |creates|) && LegalChanges(e, v, changes, |changes|) {
      forall id | id in e.current && FateOf(e, e.current[id]) == MakeNew && id !in e.oversize
        ensures LegalCreate(e, v, e.current[id])
      {
        assert e.current[id] in creates;
        var j :| 0 <= j < |creates| && creates[j] == e.current[id];
      }
      forall id | id in e.current && FateOf(e, e.current[id]) == Follow
        ensures LegalChange(e, v, e.current[id])
      {
        assert e.current[id] in changes;
        var j :| 0 <= j < |changes| && changes[j] == e.current[id];
      }
    }
    if Legal(e, v) {
      forall j | 0 <= j < |creates| && creates[j].id !in e.oversize
        ensures LegalCreate(e, v, creates[j])
      {
        assert creates[j] in creates;
      }
      forall j | 0 <= j < |changes|
        ensures LegalChange(e, v, changes[j])
      {
        assert changes[j] in changes;
      }
    }
  }

  lemma ListedIds(e: Scan, os: seq<Observed>, fate: Fate, id: Uuid)
    requires ScanOk(e) && Lists(e, os, fate, e.current.Keys)
    ensures id in IdsOf(os, |os|) <==> id in e.current && FateOf(e, e.current[id]) == fate
  {
    IdsAre(os, |os|, id);
    hide FateOf, ObservedOk, IdsOf, IdsDistinct;
    if id in e.current && FateOf(e, e.current[id]) == fate {
      assert e.current[id] in os;
    }
    if id in IdsOf(os, |os|) {
      var j :| 0 <= j < |os| && os[j].id == id;
      assert os[j] in os;
    }
  }

  lemma RemovedIds(e: Scan, os: seq<Observed>, id: Uuid)
    requires ScanOk(e) && ListsRemoved(e, os, e.earlier.Keys)
    ensures id in IdsOf(os, |os|) <==> Removed(e, id)
  {
    IdsAre(os, |os|, id);
    GoneIs(e, id);
    hide ObservedOk, IdsOf, IdsDistinct, Removed, Gone;
    if Removed(e, id) {
      assert e.earlier[id] in os;
    }
    if id in IdsOf(os, |os|) {
      var j :| 0 <= j < |os| && os[j].id == id;
      assert os[j] in os;
    }
  }

  lemma HandledAll(e: Scan, creates: seq<Observed>, changes: seq<Observed>, deletes: seq<Observed>, id: Uuid)
    requires ScanOk(e) && Lists(e, creates, MakeNew, e.current.Keys) && Lists(e, changes, Follow, e.current.Keys)
    requires ListsRemoved(e, deletes, e.earlier.Keys)
    ensures id in IdsOf(creates, |creates|) + IdsOf(changes, |changes|) + IdsOf(deletes, |deletes|) <==> Handled(e, id)
    ensures id in IdsOf(creates, |creates|) + IdsOf(changes, |changes|)
            <==> id in e.current && FateOf(e, e.current[id]) != Ignore
  {
    hide *;
    ListedIds(e, creates, MakeNew, id);
    ListedIds(e, changes, Follow, id);
    RemovedIds(e, deletes, id);
    HandledIs(e, id);
  }

  /** What the batch promises about the queue: accepted in full, appending only, unless some object has no two revisions
      left. */
  ghost predicate Accepted(e: Scan, ms: seq<Mutation>, kept: seq<Mutation>) {
    if AllRoom(e) then
      Clean(e.s, ms, kept) && Invariant(Extend(e.s, kept)) && (NoneStranded(e.s) ==> NoneStranded(Extend(e.s, kept)))
    else EnqueueAll(Running(e.s, {}), ms) == Failed
  }

  /** What it promises about the vault: replayed on the view the queue projects, it ends with the new snapshot; and it
      can be replayed exactly if every followed object, and every folder something is put into, still exists there. */
  ghost predicate Faithful(e: Scan, v: View, ms: seq<Mutation>) {
    (Play(v, ms).Some? <==> Legal(e, v)) && (Legal(e, v) ==> Caught(e, v, Play(v, ms).value))
  }

  lemma AcceptedIf(e: Scan, gen: nat -> Uuid, k: nat, ms: seq<Mutation>, kept: seq<Mutation>, done: set<Uuid>)
    requires StoreOk(e.s) && Judged(e, gen, k, ms, kept, done, AllRoom(e))
    ensures Accepted(e, ms, kept)
  {
    hide *;
    JudgedIs(e, gen, k, ms, kept, done, AllRoom(e));
    if AllRoom(e) {
      BatchedIs(e, gen, k, ms, kept, done);
      StoreInvariant(e.s);
      TameKeeps(e.s, ms, kept, done);
    }
    AcceptedBy(e, ms, kept);
  }

  lemma StoreInvariant(s: State)
    requires StoreOk(s)
    ensures Invariant(s)
  {
    hide Invariant, RowsValid, BaselinesStorable;
  }

  lemma AcceptedBy(e: Scan, ms: seq<Mutation>, kept: seq<Mutation>)
    requires AllRoom(e) ==> Clean(e.s, ms, kept) && Invariant(Extend(e.s, kept))
                            && (NoneStranded(e.s) ==> NoneStranded(Extend(e.s, kept)))
    requires !AllRoom(e) ==> EnqueueAll(Running(e.s, {}), ms) == Failed
    ensures Accepted(e, ms, kept)
  {
    hide AllRoom, Clean, Invariant, NoneStranded, EnqueueAll, Extend;
  }

  lemma FaithfulIf(e: Scan, v: View, ms: seq<Mutation>, done: set<Uuid>)
    requires ScanOk(e) && ProjectedView(e, v) && Viewed(e, v, ms, done, Legal(e, v))
             && forall id :: id in done <==> Handled(e, id)
    ensures Faithful(e, v, ms)
  {
    hide *;
    ViewedIs(e, v, ms, done, Legal(e, v));
    if Legal(e, v) {
      AllCaught(e, v, Play(v, ms).value, done);
    }
    FaithfulBy(e, v, ms);
  }

  lemma FaithfulBy(e: Scan, v: View, ms: seq<Mutation>)
    requires (Play(v, ms).Some? <==> Legal(e, v)) && (Legal(e, v) ==> Caught(e, v, Play(v, ms).value))
    ensures Faithful(e, v, ms)
  {
    hide Play, Legal, Caught;
  }

  /** What the derivation needs: every projection it reads fits, every new object's folder is known or new, every moved
      object's folder is known, and the bytes it stages can be read. */
  ghost predicate Derivable(e: Scan) {
    && Readable(e, e.current.Keys) && ReadableGone(e, e.earlier.Keys)
    && (forall id :: id in e.current && FateOf(e, e.current[id]) == MakeNew ==> Creatable(e, e.current[id]))
    && (forall id :: id in e.current && FateOf(e, e.current[id]) == Follow ==> Emittable(e, e.current[id]))
  }

  lemma DerivableIs(e: Scan, creates: seq<Observed>, changes: seq<Observed>)
    requires ScanOk(e) && Lists(e, creates, MakeNew, e.current.Keys) && Lists(e, changes, Follow, e.current.Keys)
    ensures Derivable(e) <==> Readable(e, e.current.Keys) && ReadableGone(e, e.earlier.Keys)
                              && AllCreatable(e, creates, |creates|) && AllEmittable(e, changes, |changes|)
  {
    hide Readable, ReadableGone, Creatable, Emittable, FateOf, ObservedOk, IdsDistinct;
    if AllCreatable(e, creates, |creates|) && AllEmittable(e, changes, |changes|) {
      forall id | id in e.current && FateOf(e, e.current[id]) == MakeNew
        ensures Creatable(e, e.current[id])
      {
        assert e.current[id] in creates;
        var j :| 0 <= j < |creates| && creates[j] == e.current[id];
      }
      forall id | id in e.current && FateOf(e, e.current[id]) == Follow
        ensures Emittable(e, e.current[id])
      {
        assert e.current[id] in changes;
        var j :| 0 <= j < |changes| && changes[j] == e.current[id];
      }
    }
    if Derivable(e) {
      forall j | 0 <= j < |creates|
        ensures Creatable(e, creates[j])
      {
        assert creates[j] in creates;
      }
      forall j | 0 <= j < |changes|
        ensures Emittable(e, changes[j])
      {
        assert changes[j] in changes;
      }
    }
  }

  lemma NotReadable(e: Scan)
    ensures Derivable(e) ==> Readable(e, e.current.Keys) && ReadableGone(e, e.earlier.Keys)
  {
    hide Readable, ReadableGone, Creatable, Emittable, FateOf;
  }

  // ---------------------------------------------------------------- folders are empty when they are deleted

  /** Both snapshots come from a tree: nothing current lies in a vanished folder, and what a folder held lay deeper. */
  ghost predicate Treelike(e: Scan) {
    && (forall id :: id in e.current ==> !Gone(e, e.current[id].parent))
    && forall id :: id in e.earlier && e.earlier[id].parent in e.earlier ==>
         |e.earlier[e.earlier[id].parent].path| < |e.earlier[id].path|
  }

  predicate EmptyFolder(u: View, f: Uuid) {
    forall x :: x in u ==> u[x].parent != f
  }

  /** Nothing that the capture leaves alone lies in the folder. */
  ghost predicate Undisturbed(e: Scan, v: View, f: Uuid) {
    forall x :: x in v && !Handled(e, x) ==> v[x].parent != f
  }

  /** At its turn, a deleted folder is empty exactly if nothing lies in it that the capture leaves alone. */
  ghost predicate EmptyAtTurn(e: Scan, v: View, ms: seq<Mutation>, i: nat)
    requires i < |ms|
  {
    Play(v, ms[..i]).Some? && (EmptyFolder(Play(v, ms[..i]).value, ms[i].obj) <==> Undisturbed(e, v, ms[i].obj))
  }

  ghost predicate DeletesEmpty(e: Scan, v: View, ms: seq<Mutation>) {
    forall i :: 0 <= i < |ms| && ms[i].kind == Delete ==> EmptyAtTurn(e, v, ms, i)
  }

  lemma DeletePlayed(u: View, m: Mutation, o: Observed)
    requires m.kind == Delete && m.obj == o.id
    ensures Apply(u, m) == Apply(u, DeleteOp(o, m.op, 0, None, []))
  {
  }

  lemma TailOp(ms: seq<Mutation>, batch: seq<Mutation>, deletes: seq<Observed>, n: nat)
    requires Tail(ms, batch, deletes, |deletes|) && n < |deletes|
    ensures |ms| == |batch| + |deletes| && ms[..|batch| + n + 1] == ms[..|batch| + n] + [ms[|batch| + n]]
    ensures ms[|batch| + n].kind == Delete && ms[|batch| + n].obj == deletes[n].id && ms[..|batch|] == batch
  {
    assert DeletesAt(ms, |batch| + n, deletes[n]);
  }

  lemma TailViewedNext(e: Scan, v: View, ms: seq<Mutation>, batch: seq<Mutation>, deletes: seq<Observed>,
                       handled: set<Uuid>, n: nat)
    requires ProjectedView(e, v) && StillCurrent(e, handled) && Tail(ms, batch, deletes, |deletes|)
    requires ListsRemoved(e, deletes, e.earlier.Keys) && n < |deletes| && |ms| == |batch| + |deletes|
    requires Viewed(e, v, ms[..|batch| + n], handled + IdsOf(deletes, n), true)
    ensures Viewed(e, v, ms[..|batch| + n + 1], handled + IdsOf(deletes, n + 1), true)
  {
    var before, done, o, m := ms[..|batch| + n], handled + IdsOf(deletes, n), deletes[n], ms[|batch| + n];
    hide *;
    TailOp(ms, batch, deletes, n);
    ListedRemoved(e, deletes, e.earlier.Keys, n);
    IdsNext(deletes, n);
    NotHandled(e, handled, o.id);
    ViewedDelete(e, v, before, done, true, o, m.op, 0, None, []);
    DeletedSame(e, v, before, done + {o.id}, m, o);
    assert done + {o.id} == handled + IdsOf(deletes, n + 1);
  }

  lemma TailFirst(ms: seq<Mutation>, batch: seq<Mutation>, deletes: seq<Observed>, handled: set<Uuid>)
    requires Tail(ms, batch, deletes, |deletes|)
    ensures |ms| == |batch| + |deletes| && ms[..|batch| + 0] == batch && handled + IdsOf(deletes, 0) == handled
  {
  }

  /** The view once the first n objects are deleted. */
  lemma {:induction false} TailViewed(e: Scan, v: View, ms: seq<Mutation>, batch: seq<Mutation>,
                                      deletes: seq<Observed>, handled: set<Uuid>, n: nat)
    requires ProjectedView(e, v) && Viewed(e, v, batch, handled, true) && StillCurrent(e, handled)
    requires Tail(ms, batch, deletes, |deletes|) && ListsRemoved(e, deletes, e.earlier.Keys) && n <= |deletes|
    ensures |ms| == |batch| + |deletes| && Viewed(e, v, ms[..|batch| + n], handled + IdsOf(deletes, n), true)
  {
    hide *;
    TailFirst(ms, batch, deletes, handled);
    if n > 0 {
      TailViewed(e, v, ms, batch, deletes, handled, n - 1);
      TailViewedNext(e, v, ms, batch, deletes, handled, n - 1);
    }
  }

  lemma DeletedSame(e: Scan, v: View, before: seq<Mutation>, done: set<Uuid>, m: Mutation, o: Observed)
    requires m.kind == Delete && m.obj == o.id && Viewed(e, v, before + [DeleteOp(o, m.op, 0, None, [])], done, true)
    ensures Viewed(e, v, before + [m], done, true)
  {
    hide *;
    ViewedIs(e, v, before + [m], done, true);
    ViewedIs(e, v, before + [DeleteOp(o, m.op, 0, None, [])], done, true);
    PlayLast(v, before, m);
    PlayLast(v, before, DeleteOp(o, m.op, 0, None, []));
    if Play(v, before).Some? {
      DeletePlayed(Play(v, before).value, m, o);
    }
  }

  lemma TreelikeAt(e: Scan, id: Uuid)
    requires Treelike(e)
    ensures id in e.current ==> !Gone(e, e.current[id].parent)
    ensures id in e.earlier && e.earlier[id].parent in e.earlier ==>
              |e.earlier[e.earlier[id].parent].path| < |e.earlier[id].path|
  {
    hide Gone;
  }

  /** What still lies in the n-th object to be deleted was left alone. */
  lemma OnlyLeftAlone(e: Scan, v: View, deletes: seq<Observed>, handled: set<Uuid>, n: nat, u: View, x: Uuid)
    requires ScanOk(e) && ProjectedView(e, v) && Legal(e, v) && Treelike(e) && ListsRemoved(e, deletes, e.earlier.Keys)
             && BottomUp(deletes)
    requires forall id :: id in handled <==> id in e.current && FateOf(e, e.current[id]) != Ignore
    requires n < |deletes| && Shown(e, v, u, handled + IdsOf(deletes, n)) && x in u && u[x].parent == deletes[n].id
    ensures !Handled(e, x)
  {
    var f, done := deletes[n].id, handled + IdsOf(deletes, n);
    var shown := x in done;
    assert shown == (x in handled || x in IdsOf(deletes, n));
    hide *;
    ListedRemoved(e, deletes, e.earlier.Keys, n);
    HandledIs(e, f);
    HandledIs(e, x);
    ShownAt(e, v, u, done, x);
    AtIs(u, x);
    AtIs(v, x);
    TreelikeAt(e, x);
    if x in e.current && FateOf(e, e.current[x]) != Ignore {
      FinalParent(e, v, x);
      assert false;
    }
    if Removed(e, x) {
      FinalGone(e, v, x);
      TrackedIn(e, v, x);
      MatchesIs(v[x], e.earlier[x]);
      DeletedLater(e, deletes, n, x);
      assert false;
    }
  }

  lemma MatchesIs(x: Entry, o: Observed)
    requires Matches(x, o)
    ensures x.parent == o.parent
  {
    hide NameOf;
  }

  /** Where a handled object ends is where the new snapshot has it. */
  lemma FinalParent(e: Scan, v: View, id: Uuid)
    requires ScanOk(e) && ProjectedView(e, v) && Legal(e, v) && id in e.current && FateOf(e, e.current[id]) != Ignore
    requires Final(e, v, id).Some?
    ensures Final(e, v, id).value.parent == e.current[id].parent
  {
    hide *;
    ScanAt(e, id);
    FinalTracked(e, v, id);
    if FateOf(e, e.current[id]) == MakeNew {
      FinalNew(e, v, e.current[id]);
    } else {
      assert FateOf(e, e.current[id]) == Follow;
    }
  }

  /** What is deleted later does not lie deeper. */
  lemma DeletedLater(e: Scan, deletes: seq<Observed>, n: nat, x: Uuid)
    requires ScanOk(e) && ListsRemoved(e, deletes, e.earlier.Keys) && BottomUp(deletes) && n < |deletes|
             && Removed(e, x)
    ensures x in e.earlier && deletes[n].id in e.earlier
    ensures x !in IdsOf(deletes, n) ==> |e.earlier[x].path| <= |e.earlier[deletes[n].id].path|
  {
    hide *;
    RemovedIds(e, deletes, x);
    FinalGoneOnly(e, x);
    ListedRemoved(e, deletes, e.earlier.Keys, n);
    IdsAre(deletes, |deletes|, x);
    IdsAre(deletes, n, x);
    var j :| 0 <= j < |deletes| && deletes[j].id == x;
    ListedRemoved(e, deletes, e.earlier.Keys, j);
    if j >= n {
      BottomUpAt(deletes, n, j);
    }
  }

  lemma FinalGoneOnly(e: Scan, id: Uuid)
    requires Removed(e, id)
    ensures id in e.earlier
  {
    hide Durable;
  }

  lemma BottomUpAt(os: seq<Observed>, i: nat, j: nat)
    requires BottomUp(os) && i <= j < |os|
    ensures |os[i].path| >= |os[j].path|
  {
  }

  lemma LeftAloneStays(e: Scan, v: View, u: View, done: set<Uuid>, f: Uuid)
    requires Shown(e, v, u, done) && (forall id :: id in done ==> Handled(e, id)) && EmptyFolder(u, f)
    ensures Undisturbed(e, v, f)
  {
    forall x | x in v && !Handled(e, x)
      ensures v[x].parent != f
    {
      ShownAt(e, v, u, done, x);
    }
    hide Handled, Shown;
  }

  lemma EmptyIf(e: Scan, v: View, u: View, f: Uuid)
    requires forall x :: x in u && u[x].parent == f ==> x in v && !Handled(e, x) && v[x] == u[x]
    ensures Undisturbed(e, v, f) ==> EmptyFolder(u, f)
  {
    hide Handled;
  }

  lemma TurnEmpty(e: Scan, v: View, deletes: seq<Observed>, handled: set<Uuid>, n: nat, u: View)
    requires ScanOk(e) && ProjectedView(e, v) && Legal(e, v) && Treelike(e) && ListsRemoved(e, deletes, e.earlier.Keys)
             && BottomUp(deletes)
    requires forall id :: id in handled <==> id in e.current && FateOf(e, e.current[id]) != Ignore
    requires n < |deletes| && Shown(e, v, u, handled + IdsOf(deletes, n))
    ensures EmptyFolder(u, deletes[n].id) <==> Undisturbed(e, v, deletes[n].id)
  {
    var f, done := deletes[n].id, handled + IdsOf(deletes, n);
    hide *;
    forall id | id in done
      ensures Handled(e, id)
    {
      HandledBefore(e, deletes, handled, n, id);
    }
    forall x | x in u && u[x].parent == f
      ensures x in v && !Handled(e, x) && v[x] == u[x]
    {
      OnlyLeftAlone(e, v, deletes, handled, n, u, x);
      ShownAt(e, v, u, done, x);
      AtIs(u, x);
      AtIs(v, x);
    }
    EmptyIf(e, v, u, f);
    if EmptyFolder(u, f) {
      LeftAloneStays(e, v, u, done, f);
    }
  }

  lemma HandledBefore(e: Scan, deletes: seq<Observed>, handled: set<Uuid>, n: nat, id: Uuid)
    requires ScanOk(e) && ListsRemoved(e, deletes, e.earlier.Keys) && n < |deletes| && id in handled + IdsOf(deletes, n)
    requires forall id :: id in handled <==> id in e.current && FateOf(e, e.current[id]) != Ignore
    ensures Handled(e, id)
  {
    assert id in handled || id in IdsOf(deletes, n);
    hide *;
    HandledIs(e, id);
    IdsAre(deletes, n, id);
    if id in IdsOf(deletes, n) {
      var j :| 0 <= j < n && deletes[j].id == id;
      ListedRemoved(e, deletes, e.earlier.Keys, j);
    }
  }

  lemma DeletesEmptyIf(e: Scan, v: View, ms: seq<Mutation>, batch: seq<Mutation>, deletes: seq<Observed>,
                       handled: set<Uuid>)
    requires ScanOk(e) && ProjectedView(e, v) && Legal(e, v) && Treelike(e) && ListsRemoved(e, deletes, e.earlier.Keys)
             && BottomUp(deletes)
    requires forall id :: id in handled <==> id in e.current && FateOf(e, e.current[id]) != Ignore
    requires NoDeletes(batch) && Tail(ms, batch, deletes, |deletes|) && Viewed(e, v, batch, handled, true)
             && StillCurrent(e, handled)
    ensures DeletesEmpty(e, v, ms)
  {
    hide *;
    forall i | 0 <= i < |ms| && ms[i].kind == Delete
      ensures EmptyAtTurn(e, v, ms, i)
    {
      var n := TailAt(ms, batch, deletes, i);
      TailViewed(e, v, ms, batch, deletes, handled, n);
      ViewedIs(e, v, ms[..i], handled + IdsOf(deletes, n), true);
      TurnEmpty(e, v, deletes, handled, n, Play(v, ms[..i]).value);
      TurnIs(e, v, ms, i);
    }
    DeletesEmptyIs(e, v, ms);
  }

  lemma TurnIs(e: Scan, v: View, ms: seq<Mutation>, i: nat)
    requires i < |ms| && Play(v, ms[..i]).Some?
    requires EmptyFolder(Play(v, ms[..i]).value, ms[i].obj) <==> Undisturbed(e, v, ms[i].obj)
    ensures EmptyAtTurn(e, v, ms, i)
  {
    hide EmptyFolder, Undisturbed, Play;
  }

  lemma DeletesEmptyIs(e: Scan, v: View, ms: seq<Mutation>)
    requires forall i :: 0 <= i < |ms| && ms[i].kind == Delete ==> EmptyAtTurn(e, v, ms, i)
    ensures DeletesEmpty(e, v, ms)
  {
    hide EmptyAtTurn;
  }

  // ---------------------------------------------------------------- the derivation

  /** Derives the batch. When it succeeds, the queue accepts the batch and the batch says what the new snapshot says. */
  method Derive(e: Scan, gen: nat -> Uuid, ghost v: View)
    returns (ok: bool, ms: seq<Mutation>, cancel: seq<Uuid>, skipped: seq<Path>, ghost kept: seq<Mutation>)
    requires StoreOk(e.s) && FreshIds(e.s, gen) && ScanOk(e) && ProjectedView(e, v)
    ensures ok ==> Accepted(e, ms, kept) && Faithful(e, v, ms) && ChildrenFirst(e, ms) && Idle(e.s, cancel)
    ensures ok ==> ListsIdle(e, cancel, e.earlier.Keys)
    ensures ok && Legal(e, v) && Treelike(e) ==> DeletesEmpty(e, v, ms)
    ensures ok ==> Waiting(e, ms) && CreatesQueued(ms, kept) && SkippedExactly(e, skipped)
    ensures NestedPaths(e) ==> (ok <==> Derivable(e))
  {
    hide *;
    ms, cancel, skipped, kept := [], [], [], [];
    var creates, changes, deletes, k, more;
    NotReadable(e);
    ok, creates, changes := Classify(e);
    if !ok {
      return;
    }
    ok, deletes, cancel := Vanished(e);
    if !ok {
      return;
    }
    SortLists(e, ShallowFirst, creates, MakeNew, e.current.Keys);
    SortLists(e, ByPath, changes, Follow, e.current.Keys);
    SortRemoved(e, DeepFirst, deletes, e.earlier.Keys);
    DeepFirstSorts(deletes);
    ShallowFirstSorts(creates);
    creates, changes, deletes := Sorting.Sort(ShallowFirst, creates), Sorting.Sort(ByPath, changes),
      Sorting.Sort(DeepFirst, deletes);
    DerivableIs(e, creates, changes);
    ok, ms, k, skipped, kept := EmitCreates(e, gen, creates, v);
    if !ok {
      return;
    }
    SameQueued(ms);
    ghost var created := IdsOf(creates, |creates|);
    ghost var legal := LegalCreates(e, v, creates, |creates|);
    ok, ms, k, more, kept := EmitChanges(e, gen, changes, ms, k, v, kept, created, legal);
    if !ok {
      return;
    }
    skipped := skipped + more;
    AllSkipped(e, creates, changes);
    RoomAll(e, changes);
    LegalAll(e, v, creates, changes);
    ghost var handled := created + IdsOf(changes, |changes|);
    forall id
      ensures id in handled <==> id in e.current && FateOf(e, e.current[id]) != Ignore
      ensures id in handled + IdsOf(deletes, |deletes|) <==> Handled(e, id)
    {
      HandledAll(e, creates, changes, deletes, id);
    }
    StillCurrentIf(e, handled);
    ghost var batch := ms;
    ms, k, kept := EmitDeletes(e, gen, deletes, ms, k, v, kept, handled, AllRoom(e), Legal(e, v));
    DeletesOrdered(e, ms, batch, deletes);
    if Legal(e, v) && Treelike(e) {
      DeletesEmptyIf(e, v, ms, batch, deletes, handled);
    }
    AcceptedIf(e, gen, k, ms, kept, handled + IdsOf(deletes, |deletes|));
    FaithfulIf(e, v, ms, handled + IdsOf(deletes, |deletes|));
  }

  lemma StillCurrentIf(e: Scan, done: set<Uuid>)
    requires forall id :: id in done ==> id in e.current
    ensures StillCurrent(e, done)
  {
  }

  // ---------------------------------------------------------------- the transaction

  /** Nothing that is not durable is queued, so cancelling its queue changes nothing. */
  lemma CancelsNothing(s: State, id: Uuid)
    requires !Durable(s, id)
    ensures Cancelled(s, id) == s
  {
    forall i | 0 <= i < |s.rows|
      ensures Cancelled(s, id).rows[i] == s.rows[i]
    {
      NoneQueued(s, id, |s.rows|, i);
    }
    hide Count;
    assert Cancelled(s, id).rows == s.rows;
  }

  lemma IdleAt(s: State, cancel: seq<Uuid>, i: nat)
    requires Idle(s, cancel) && i < |cancel|
    ensures !Durable(s, cancel[i])
  {
    hide Durable;
  }

  lemma AcceptedIs(e: Scan, ms: seq<Mutation>, kept: seq<Mutation>)
    requires Accepted(e, ms, kept)
    ensures EnqueueAll(Running(e.s, {}), ms).Running? <==> AllRoom(e)
    ensures AllRoom(e) ==> EnqueueAll(Running(e.s, {}), ms).s == Extend(e.s, kept)
    ensures AllRoom(e) ==> Invariant(Extend(e.s, kept)) && (NoneStranded(e.s) ==> NoneStranded(Extend(e.s, kept)))
  {
    hide AllRoom, Invariant, NoneStranded, EnqueueAll, Extend, ObjsOf;
  }

  /** Derives the batch and queues it. When it succeeds the queue has only grown, by operations that say what the new
      snapshot says; when it fails the queue is as it was. */
  method CaptureSnapshot(store: Store, e: Scan, gen: nat -> Uuid, ghost v: View)
    returns (ok: bool, skipped: seq<Path>, ghost ms: seq<Mutation>, ghost kept: seq<Mutation>)
    requires store.View() == e.s && StoreOk(e.s) && FreshIds(e.s, gen) && ScanOk(e) && ProjectedView(e, v)
    modifies store
    ensures ok ==> store.View() == Extend(old(store.View()), kept) && Invariant(store.View()) && Faithful(e, v, ms)
                   && ChildrenFirst(e, ms)
    ensures ok && Legal(e, v) && Treelike(e) ==> DeletesEmpty(e, v, ms)
    ensures ok ==> Waiting(e, ms) && SkippedExactly(e, skipped)
    ensures ok ==> RefusedTogether(store.View(), |old(store.View()).rows|, ms, kept)
    ensures ok ==> NoneStranded(old(store.View())) ==> NoneStranded(store.View())
    ensures !ok ==> store.View() == old(store.View())
    ensures NestedPaths(e) ==> (ok <==> Derivable(e) && AllRoom(e))
  {
    hide Derivable, NestedPaths, Treelike, Legal, DeletesEmpty, Invariant, NoneStranded, Faithful, ChildrenFirst,
         Accepted, EnqueueAll, Extend, Idle, StoreOk, FreshIds, ScanOk, ProjectedView, AllRoom;
    var derived, batch, cancel;
    derived, batch, cancel, skipped, kept := Derive(e, gen, v);
    ms := batch;
    if !derived {
      return false, [], ms, kept;
    }
    for i := 0 to |cancel|
      invariant store.View() == e.s
    {
      IdleAt(e.s, cancel, i);
      CancelsNothing(e.s, cancel[i]);
      store.CancelPending(cancel[i]);
    }
    AcceptedIs(e, batch, kept);
    ok := store.Enqueue(batch);
    if ok {
      AllInsideDoomed(e, ms, kept);
    }
  }

  // ---------------------------------------------------------------- an object that comes back

  lemma FollowOk(s: State, m: Mutation)
    requires StoreOk(s) && m.kind == Delete && ValidMutation(m) && FollowsProjection(s, m) && ProjectionOk(s, m.obj)
    requires Deps(m) == {} && !HasOp(s, |s.rows|, m.op)
    ensures Invariant(Appended(s, m))
  {
    hide *;
    StoreIs(s, m.obj);
    NothingTame(s);
    NothingForeign(s, m);
    KeepFollow(s, [], [], m);
    QueueIs(s, [], m);
    StoreFormed(s);
    DeleteIsTame(s, m);
    StoreInvariant(s);
    TameKeeps(s, [] + [m], [] + [m], {} + {m.obj});
    ExtendLast(s, [], m);
    NothingExtends(s);
  }

  lemma NothingForeign(s: State, m: Mutation)
    requires Deps(m) == {} && !HasOp(s, |s.rows|, m.op)
    ensures Foreign([], m.obj) && NewHere(s, [], m) && KeptNew(s, [])
    ensures m.kind == Delete ==> m.kind != Create && m.kind != Move
  {
  }

  lemma DeleteIsTame(s: State, m: Mutation)
    requires m.kind == Delete && WellFormed(s) && Deps(m) == {} && !HasOp(s, |s.rows|, m.op)
    ensures Tame(s, [] + [m], {} + {m.obj})
  {
    NothingTame(s);
    NothingForeign(s, m);
    hide WellFormed, Clean, Tame, NewHere, KeptNew;
    TameNext(s, [], [], {}, m);
  }

  lemma NothingExtends(s: State)
    ensures Extend(s, []) == s
  {
  }

  function NoOptions(): Options {
    Options({}, map[], map[], map[], map[], {})
  }

  /** A folder whose delete is still queued and that is back on disk. */
  function BackOnDisk(): Scan {
    var folder: Uuid := 0x8000_0000_0000_0005;
    var m := Mutation(0x7000_8000_0000_0000_0001, Delete, folder, Folder, 1, None, "", [], None, []);
    Scan(State([Row(m, Pending)], map[folder := 1], {}, map[]), map[], map[],
         map[folder := Observed(folder, Folder, ["n"], NIL, [], 0, 0, IdentityKnown)], {}, NoOptions(), {}, {})
  }

  lemma BackStore()
    ensures StoreOk(BackOnDisk().s)
  {
    var folder: Uuid := 0x8000_0000_0000_0005;
    var s, m := State([], map[folder := 1], {}, map[]), BackOnDisk().s.rows[0].m;
    EmptyInvariant(s);
    assert Deps(m) == {};
    FollowOk(s, m);
    assert Appended(s, m) == BackOnDisk().s;
  }

  lemma BackScan()
    ensures ScanOk(BackOnDisk()) && NestedPaths(BackOnDisk())
  {
    SingleLetter('n');
    hide ValidComponent;
  }

  lemma BackFate(o: Observed)
    requires o == BackOnDisk().current[0x8000_0000_0000_0005]
    ensures FateOf(BackOnDisk(), o) == Follow && Moved(BackOnDisk(), o) && !Changed(BackOnDisk(), o)
            && ProjectionOk(BackOnDisk().s, o.id)
  {
    var e := BackOnDisk();
    assert Considered(e, o);
    assert Count(e.s, o.id, 1) <= 1;
  }

  lemma BackDerivable()
    ensures Derivable(BackOnDisk()) && AllRoom(BackOnDisk())
  {
    var o := BackOnDisk().current[0x8000_0000_0000_0005];
    BackFate(o);
    hide FateOf, Moved, Changed, ProjectionOk, Durable, Considered, Gone;
    assert BackOnDisk().current.Keys == {o.id};
    assert forall id :: !Gone(BackOnDisk(), id) by { NoneVanished(); }
  }

  lemma NoneVanished()
    ensures forall id :: !Gone(BackOnDisk(), id)
  {
  }

  /** The derivation follows its projection and the queue accepts the move, but there is nothing left for it to move. */
  lemma ComesBack(v: View)
    requires v == map[]
    ensures var e := BackOnDisk();
      StoreOk(e.s) && ScanOk(e) && NestedPaths(e) && ProjectedView(e, v) && Derivable(e) && AllRoom(e) && !Legal(e, v)
  {
    var e := BackOnDisk();
    var o := e.current[0x8000_0000_0000_0005];
    BackFate(o);
    BackStore();
    BackScan();
    BackDerivable();
    hide StoreOk, ScanOk, NestedPaths, Derivable, AllRoom, FateOf, Moved, Changed;
    assert !LegalChange(e, v, o);
  }

  /** A folder moved into one that is new in the same scan. */
  function IntoNewFolder(): Scan {
    var outer: Uuid, inner: Uuid := 0x8000_0000_0000_0005, 0x8000_0000_0000_0006;
    Scan(State([], map[inner := 1], {}, map[]),
         map[inner := Observed(inner, Folder, ["n"], NIL, [], 1, 2, IdentityKnown)], map[],
         map[outer := Observed(outer, Folder, ["f"], NIL, [], 1, 1, IdentityNew),
             inner := Observed(inner, Folder, ["f", "n"], outer, [], 1, 2, IdentityKnown)],
         {}, NoOptions(), {}, {})
  }

  lemma IntoNewStore(v: View)
    requires v == map[0x8000_0000_0000_0006 := Entry(NIL, "n", [])]
    ensures StoreOk(IntoNewFolder().s) && ProjectedView(IntoNewFolder(), v)
  {
    EmptyInvariant(IntoNewFolder().s);
    hide Invariant;
  }

  lemma FolderObserved(o: Observed, c: char)
    requires ValidObjectId(o.id) && (o.parent == NIL || ValidObjectId(o.parent)) && 'a' <= c <= 'z'
             && o.otype == Folder && o.hash == []
    requires o.path != [] && o.path[|o.path| - 1] == [c]
    ensures ObservedOk(o)
  {
    SingleLetter(c);
    hide ValidComponent, ValidObjectId;
  }

  lemma IntoNewScan()
    ensures ScanOk(IntoNewFolder()) && NestedPaths(IntoNewFolder())
  {
    var e := IntoNewFolder();
    var outer: Uuid, inner: Uuid := 0x8000_0000_0000_0005, 0x8000_0000_0000_0006;
    FolderObserved(e.current[outer], 'f');
    FolderObserved(e.current[inner], 'n');
    FolderObserved(e.earlier[inner], 'n');
    hide ObservedOk;
    assert e.current.Keys == {outer, inner} && e.earlier.Keys == {inner};
  }

  lemma IntoNewFates(o: Observed, p: Observed)
    requires o == IntoNewFolder().current[0x8000_0000_0000_0006] && p == IntoNewFolder().current[0x8000_0000_0000_0005]
    ensures FateOf(IntoNewFolder(), o) == Follow && !Emittable(IntoNewFolder(), o)
    ensures FateOf(IntoNewFolder(), p) == MakeNew && Creatable(IntoNewFolder(), p)
  {
    var e := IntoNewFolder();
    assert Considered(e, o) && Considered(e, p);
    assert Durable(e.s, o.id) && !Durable(e.s, p.id);
    hide Durable, Considered;
    assert Moved(e, o);
  }

  lemma NotEmittable(e: Scan, id: Uuid)
    requires id in e.current && FateOf(e, e.current[id]) == Follow && !Emittable(e, e.current[id])
    ensures !Derivable(e)
  {
    hide FateOf, Emittable, Creatable, Readable, ReadableGone;
  }

  lemma IntoNewFolderIs(v: View)
    requires v == map[0x8000_0000_0000_0006 := Entry(NIL, "n", [])]
    ensures var e := IntoNewFolder();
            StoreOk(e.s) && ScanOk(e) && NestedPaths(e) && ProjectedView(e, v) && !Derivable(e)
    ensures Creatable(IntoNewFolder(), IntoNewFolder().current[0x8000_0000_0000_0005])
  {
    var e := IntoNewFolder();
    var o, p := e.current[0x8000_0000_0000_0006], e.current[0x8000_0000_0000_0005];
    IntoNewStore(v);
    IntoNewScan();
    IntoNewFates(o, p);
    assert o.id in e.current && e.current[o.id] == o;
    hide *;
    NotEmittable(e, o.id);
  }

  /** The new folder could be created, yet the derivation fails: a move looks only at what is queued or known, not at
      the creates of its own batch. */
  method MovesIntoNew(gen: nat -> Uuid) returns (ok: bool)
    requires FreshIds(IntoNewFolder().s, gen)
    ensures StoreOk(IntoNewFolder().s) && ScanOk(IntoNewFolder()) && NestedPaths(IntoNewFolder()) && !ok
  {
    hide *;
    ghost var v: View := map[0x8000_0000_0000_0006 := Entry(NIL, "n", [])];
    IntoNewFolderIs(v);
    var ms, cancel, skipped;
    ghost var kept: seq<Mutation>;
    ok, ms, cancel, skipped, kept := Derive(IntoNewFolder(), gen, v);
  }
}
