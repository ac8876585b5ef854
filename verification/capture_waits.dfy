/** What each captured operation waits for. */
module CaptureWaits {
  import opened Ids
  import opened Optional
  import opened Outbox
  import opened OutboxExtend
  import opened Capture
  import opened CaptureOps

  function OpOf(d: Option<Uuid>): set<Uuid> {
    if d.Some? then {d.value} else {}
  }

  /** The i-th operation creates the object. */
  predicate Makes(ms: seq<Mutation>, i: nat, id: Uuid) {
    i < |ms| && ms[i].kind == Create && ms[i].obj == id
  }

  /** A create waits for the create of its folder if that comes earlier in the batch, and otherwise for the last
      operation queued for the folder. */
  ghost predicate CreateWaits(e: Scan, ms: seq<Mutation>, j: nat)
    requires j < |ms|
  {
    var m := ms[j];
    if m.parent == None then Deps(m) == {}
    else if exists i :: 0 <= i < j && Makes(ms, i, m.parent.value) then
      forall i :: 0 <= i < j && Makes(ms, i, m.parent.value) ==> Deps(m) == {ms[i].op}
    else Deps(m) == OpOf(Last(e.s, m.parent.value))
  }

  /** A move waits for the last operations queued for the object and for the folder it goes to; an update for the last
      one queued for the note, or for the note's own move right before it; a delete for the last one queued for the
      object and for the delete before it. */
  ghost predicate WaitsAt(e: Scan, ms: seq<Mutation>, j: nat)
    requires j < |ms|
  {
    var m := ms[j];
    match m.kind
    case Create => CreateWaits(e, ms, j)
    case Move => Deps(m) == OpOf(Last(e.s, m.obj)) + (if m.parent.Some? then OpOf(Last(e.s, m.parent.value)) else {})
    case Update =>
      || Deps(m) == OpOf(Last(e.s, m.obj))
      || (j > 0 && ms[j - 1].kind == Move && ms[j - 1].obj == m.obj && Deps(m) == {ms[j - 1].op})
    case Delete =>
      Deps(m) == OpOf(Last(e.s, m.obj)) + (if j > 0 && ms[j - 1].kind == Delete then {ms[j - 1].op} else {})
  }

  ghost predicate Waiting(e: Scan, ms: seq<Mutation>) {
    forall j :: 0 <= j < |ms| ==> WaitsAt(e, ms, j)
  }

  /** What an operation waits for depends on what comes before it. */
  lemma WaitsLater(e: Scan, ms: seq<Mutation>, m: Mutation, j: nat)
    requires j < |ms| && WaitsAt(e, ms, j)
    ensures WaitsAt(e, ms + [m], j)
  {
    hide Deps, Last;
    if ms[j].kind == Create && ms[j].parent.Some? {
      var p := ms[j].parent.value;
      assert forall i: nat :: i < j ==> Makes(ms + [m], i, p) == Makes(ms, i, p);
    }
  }

  lemma WaitingNext(e: Scan, ms: seq<Mutation>, m: Mutation)
    requires Waiting(e, ms) && WaitsAt(e, ms + [m], |ms|)
    ensures Waiting(e, ms + [m])
  {
    forall j | 0 <= j < |ms + [m]|
      ensures WaitsAt(e, ms + [m], j)
    {
      if j < |ms| {
        WaitsLater(e, ms, m, j);
      }
    }
    hide WaitsAt;
  }

  lemma NothingWaits(e: Scan)
    ensures Waiting(e, [])
  {
  }

  // ---------------------------------------------------------------- creates

  /** So far there are only creates, and `ops` is the table of them. */
  ghost predicate Listing(ms: seq<Mutation>, ops: map<Uuid, Uuid>) {
    && (forall i :: 0 <= i < |ms| ==> ms[i].kind == Create && ms[i].obj in ops && ops[ms[i].obj] == ms[i].op)
    && forall p :: p in ops ==> exists i :: 0 <= i < |ms| && ms[i].obj == p
  }

  lemma NothingListed()
    ensures Listing([], map[])
  {
  }

  lemma ListingNext(ms: seq<Mutation>, ops: map<Uuid, Uuid>, m: Mutation)
    requires Listing(ms, ops) && m.kind == Create && m.obj !in ops
    ensures Listing(ms + [m], ops[m.obj := m.op])
  {
    var all, now := ms + [m], ops[m.obj := m.op];
    forall p | p in now
      ensures exists i :: 0 <= i < |all| && all[i].obj == p
    {
      if p == m.obj {
        assert all[|ms|].obj == p;
      } else {
        var i :| 0 <= i < |ms| && ms[i].obj == p;
        assert all[i].obj == p;
      }
    }
  }

  lemma CreateDeps(o: Observed, op: Uuid, d: Option<Uuid>)
    ensures var m := CreateOp(o, op, d);
            m.kind == Create && m.obj == o.id && m.op == op && m.parent == ParentOf(o) && Deps(m) == OpOf(d)
  {
  }

  /** The operation the create of an object waits for, given the creates so far. */
  function FolderOp(e: Scan, o: Observed, ops: map<Uuid, Uuid>): Option<Uuid> {
    if o.parent == NIL then None else if o.parent in ops then Some(ops[o.parent]) else Last(e.s, o.parent)
  }

  lemma WaitingCreate(e: Scan, ms: seq<Mutation>, ops: map<Uuid, Uuid>, o: Observed, op: Uuid)
    requires Waiting(e, ms) && Listing(ms, ops)
    ensures Waiting(e, ms + [CreateOp(o, op, FolderOp(e, o, ops))])
  {
    var m := CreateOp(o, op, FolderOp(e, o, ops));
    var all := ms + [m];
    CreateDeps(o, op, FolderOp(e, o, ops));
    hide Deps, Last, Waiting, CreateOp;
    if o.parent != NIL {
      if o.parent in ops {
        var i :| 0 <= i < |ms| && ms[i].obj == o.parent;
        assert Makes(all, i, o.parent);
        assert forall x: nat :: x < |ms| && Makes(all, x, o.parent) ==> all[x].op == ops[o.parent];
      } else {
        assert forall x: nat :: x < |ms| ==> !Makes(all, x, o.parent);
      }
    }
    assert all[|ms|] == m;
    WaitingNext(e, ms, m);
  }

  // ---------------------------------------------------------------- moves and updates

  lemma MoveDeps(e: Scan, o: Observed, op: Uuid, base: nat)
    ensures var m := MoveOp(o, op, base, Last(e.s, o.id), Additional(e, o));
            && m.kind == Move && m.obj == o.id && m.op == op && m.parent == ParentOf(o)
            && Deps(m) == OpOf(Last(e.s, o.id)) + (if m.parent.Some? then OpOf(Last(e.s, m.parent.value)) else {})
  {
    hide Last;
    var m := MoveOp(o, op, base, Last(e.s, o.id), Additional(e, o));
    assert forall d :: d in m.additional <==> |m.additional| > 0 && d == m.additional[0];
  }

  lemma UpdateDeps(o: Observed, op: Uuid, base: nat, d: Option<Uuid>)
    ensures var m := UpdateOp(o, op, base, d); m.kind == Update && m.obj == o.id && m.op == op && Deps(m) == OpOf(d)
  {
  }

  lemma WaitingChange(e: Scan, gen: nat -> Uuid, k: nat, ms: seq<Mutation>, o: Observed)
    requires Waiting(e, ms)
    ensures Waiting(e, ms + Moves(e, gen, k, o) + Updates(e, gen, k, o))
  {
    var a, b := Moves(e, gen, k, o), Updates(e, gen, k, o);
    OpsAre(e, gen, k, o);
    hide Waiting, Moves, Updates, Moved, Changed, Projected, Last, Additional, Deps;
    if Moved(e, o) {
      var m := MoveOp(o, gen(k), Projected(e.s, o.id), Last(e.s, o.id), Additional(e, o));
      MoveDeps(e, o, gen(k), Projected(e.s, o.id));
      assert (ms + [m])[|ms|] == m;
      WaitingNext(e, ms, m);
      if b != [] {
        UpdateDeps(o, gen(k + 1), Projected(e.s, o.id) + 1, Some(gen(k)));
        assert (ms + [m] + b)[|ms|] == m && (ms + [m] + b)[|ms + [m]|] == b[0];
        WaitingNext(e, ms + [m], b[0]);
      } else {
        assert ms + a + b == ms + [m];
      }
    } else if b != [] {
      UpdateDeps(o, gen(k), Projected(e.s, o.id), Last(e.s, o.id));
      assert ms + a + b == ms + [b[0]] && (ms + [b[0]])[|ms|] == b[0];
      WaitingNext(e, ms, b[0]);
    } else {
      assert ms + a + b == ms;
    }
  }

  // ---------------------------------------------------------------- deletes

  /** The delete the batch ends with, if it does. */
  function LastDelete(ms: seq<Mutation>): Option<Uuid> {
    if ms != [] && ms[|ms| - 1].kind == Delete then Some(ms[|ms| - 1].op) else None
  }

  lemma DeleteDeps(e: Scan, o: Observed, op: Uuid, base: nat, last: Option<Uuid>)
    ensures var m := DeleteOp(o, op, base, Last(e.s, o.id), AfterDelete(e, o, last));
            && m.kind == Delete && m.obj == o.id && m.op == op && Deps(m) == OpOf(Last(e.s, o.id)) + OpOf(last)
  {
    hide Last;
    var m := DeleteOp(o, op, base, Last(e.s, o.id), AfterDelete(e, o, last));
    assert forall d :: d in m.additional <==> |m.additional| > 0 && d == m.additional[0];
  }

  lemma WaitingDelete(e: Scan, ms: seq<Mutation>, o: Observed, op: Uuid, base: nat)
    requires Waiting(e, ms)
    ensures var m := DeleteOp(o, op, base, Last(e.s, o.id), AfterDelete(e, o, LastDelete(ms)));
            Waiting(e, ms + [m]) && LastDelete(ms + [m]) == Some(op)
  {
    var m := DeleteOp(o, op, base, Last(e.s, o.id), AfterDelete(e, o, LastDelete(ms)));
    DeleteDeps(e, o, op, base, LastDelete(ms));
    hide Deps, Last, Waiting, DeleteOp;
    assert (ms + [m])[|ms|] == m && (|ms| > 0 ==> (ms + [m])[|ms| - 1] == ms[|ms| - 1]);
    WaitingNext(e, ms, m);
  }

  // ---------------------------------------------------------------- what a refused create takes with it

  /** Every create of the batch is queued, in the same place of what is queued. */
  ghost predicate CreatesQueued(ms: seq<Mutation>, kept: seq<Mutation>) {
    forall i :: 0 <= i < |ms| && ms[i].kind == Create ==> i < |kept| && kept[i] == ms[i]
  }

  lemma CreatesStayQueued(ms: seq<Mutation>, kept: seq<Mutation>, out: seq<Mutation>, next: seq<Mutation>)
    requires CreatesQueued(ms, kept) && kept <= next && forall i :: 0 <= i < |out| ==> out[i].kind != Create
    ensures CreatesQueued(ms + out, next)
  {
  }

  lemma SameQueued(ms: seq<Mutation>)
    ensures CreatesQueued(ms, ms)
  {
  }

  /** The j-th operation creates something inside the folder that the i-th creates. */
  predicate Inside(ms: seq<Mutation>, i: nat, j: nat)
    decreases j
  {
    && i < j < |ms| && ms[i].kind == Create && ms[j].kind == Create && ms[j].parent.Some?
    && (Makes(ms, i, ms[j].parent.value)
        || exists k :: i < k < j && Inside(ms, i, k) && Makes(ms, k, ms[j].parent.value))
  }

  lemma InsideWaits(e: Scan, ms: seq<Mutation>, i: nat, j: nat)
    requires Waiting(e, ms) && i < j < |ms| && ms[j].kind == Create && ms[j].parent.Some?
    requires Makes(ms, i, ms[j].parent.value)
    ensures ms[i].op in Deps(ms[j])
  {
    assert WaitsAt(e, ms, j);
  }

  /** Whatever refuses the create of a folder takes along every create captured inside it, at any depth. */
  lemma {:induction false} InsideDoomed(e: Scan, ms: seq<Mutation>, kept: seq<Mutation>, i: nat, j: nat)
    requires Waiting(e, ms) && CreatesQueued(ms, kept) && Inside(ms, i, j)
    ensures j < |kept| && kept[i] == ms[i] && kept[j] == ms[j]
    ensures Doomed(Extend(e.s, kept), ms[i].op, |e.s.rows| + j)
    decreases j
  {
    var t, n := Extend(e.s, kept), |e.s.rows|;
    ExtendIs(e.s, kept);
    hide Extend, Waiting, Deps, Doomed;
    if Makes(ms, i, ms[j].parent.value) {
      InsideWaits(e, ms, i, j);
      DoomedBy(t, ms[i].op, n + j, n + i);
    } else {
      var k :| i < k < j && Inside(ms, i, k) && Makes(ms, k, ms[j].parent.value);
      InsideDoomed(e, ms, kept, i, k);
      InsideWaits(e, ms, k, j);
      DoomedBy(t, ms[i].op, n + j, n + k);
    }
  }

  lemma DoomedBy(s: State, c: Uuid, i: nat, j: nat)
    requires Dep(s, i, j) && (s.rows[j].m.op == c || Doomed(s, c, j))
    ensures Doomed(s, c, i)
  {
  }

  /** In the outbox t, which had n rows before the batch: whatever is created inside a created folder, at any depth,
      depends on the folder's create. */
  ghost predicate RefusedTogether(t: State, n: nat, ms: seq<Mutation>, kept: seq<Mutation>) {
    forall i: nat, j: nat :: Inside(ms, i, j) ==>
      j < |kept| && kept[i] == ms[i] && kept[j] == ms[j] && Doomed(t, ms[i].op, n + j)
  }

  lemma AllInsideDoomed(e: Scan, ms: seq<Mutation>, kept: seq<Mutation>)
    requires Waiting(e, ms) && CreatesQueued(ms, kept)
    ensures RefusedTogether(Extend(e.s, kept), |e.s.rows|, ms, kept)
  {
    forall i: nat, j: nat | Inside(ms, i, j)
      ensures j < |kept| && kept[i] == ms[i] && kept[j] == ms[j]
      ensures Doomed(Extend(e.s, kept), ms[i].op, |e.s.rows| + j)
    {
      InsideDoomed(e, ms, kept, i, j);
    }
    hide Inside, Doomed, Extend;
  }
}
