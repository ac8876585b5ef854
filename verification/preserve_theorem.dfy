/** Replay of an accepted preserve-delete: legal exactly when no folder is paired with itself, and then a copy. */
module PreserveTheorem {
  import opened Ids
  import opened Naming
  import opened PreserveDelete
  import opened PreserveReplay

  // ---------------------------------------------------------------- the tree at each cursor

  lemma Span(d: Descriptor)
    requires Accepted(d)
    ensures d.last == d.first + 2 * |d.clones| + |d.notes| + 1 && DeleteStart(d) + |d.clones| == d.last
  {
  }

  lemma {:induction false} RunCreates(t: Tree, d: Descriptor, home: Uuid, rev: nat, k: nat)
    requires Accepted(d) && k <= |d.clones|
    ensures RunTo(t, d, home, rev, d.first + 1 + k) == t + Created(d, home, k)
  {
    Span(d);
    hide Accepted;
    if k > 0 {
      RunCreates(t, d, home, rev, k - 1);
      assert ItemAt(d, d.first + k) == CloneCreate(k - 1);
    } else {
      assert ItemAt(d, d.first) == RootCreate;
    }
  }

  lemma RunStep(t: Tree, d: Descriptor, home: Uuid, rev: nat, c: nat)
    requires d.first <= c
    ensures RunTo(t, d, home, rev, c + 1) == Apply(RunTo(t, d, home, rev, c), EventOf(d, home, rev, ItemAt(d, c)))
  {
  }

  /** What the validator and the listing say about the ids of different roles. */
  lemma RolesDisjoint(t: Tree, d: Descriptor)
    requires Accepted(d) && ListsSubtree(t, d) && FreshTargets(t, d) && NoSelfPairs(d)
    ensures forall k :: 0 <= k <= |d.clones| ==> SlotTarget(d, k) !in t && SlotSource(d, k) in t
    ensures forall j, k :: 0 <= j <= |d.clones| && 0 <= k <= |d.clones| ==>
      SlotTarget(d, k) != SlotSource(d, j) && (SlotSource(d, j) == SlotSource(d, k) ==> j == k)
          && (SlotTarget(d, j) == SlotTarget(d, k) ==> j == k)
    ensures forall j :: 0 <= j < |d.notes| ==> d.notes[j].note in t && !IsSource(d, d.notes[j].note)
  {
    forall k | 0 <= k <= |d.clones|
      ensures SlotTarget(d, k) != SlotSource(d, k) && SlotTarget(d, k) !in t && SlotSource(d, k) in t
    {
      assert k > 0 ==> CloneListed(t, d.clones[k - 1]);
    }
    forall j, k | 0 <= j <= |d.clones| && 0 <= k <= |d.clones| && j != k
      ensures SlotTarget(d, k) != SlotSource(d, j) && SlotSource(d, j) != SlotSource(d, k)
              && SlotTarget(d, j) != SlotTarget(d, k)
    {
      if j < k { SourcesDistinct(d, |d.clones|, j, k); } else { SourcesDistinct(d, |d.clones|, k, j); }
    }
    forall j | 0 <= j < |d.notes|
      ensures d.notes[j].note in t && !IsSource(d, d.notes[j].note)
    {
      assert NoteOk(d, j) && NoteListed(t, d.notes[j]);
    }
  }

  lemma MoveStep(t: Tree, d: Descriptor, home: Uuid, j: nat)
    requires Accepted(d) && ListsSubtree(t, d) && FreshTargets(t, d) && NoSelfPairs(d) && j < |d.notes|
    ensures var now := t + Created(d, home, |d.clones|) + Moved(t, d, j);
            d.notes[j].note in t && d.notes[j].note in now && now[d.notes[j].note] == t[d.notes[j].note]
  {
    NoteAt(t, d, j);
    AcceptedDistinct(d);
    CreatedAt(d, home, |d.clones|);
    MovedAt(t, d, j);
    RolesDisjoint(t, d);
  }

  lemma NoteAt(t: Tree, d: Descriptor, j: nat)
    requires Accepted(d) && ListsSubtree(t, d) && j < |d.notes|
    ensures NoteListed(t, d.notes[j]) && d.notes[j].targetRevision == d.notes[j].sourceRevision + 1
    ensures forall i :: 0 <= i < |d.notes| && i != j ==> d.notes[i].note != d.notes[j].note
    ensures exists k :: 0 <= k <= |d.clones| && NoteParent(d, d.notes[j], k)
  {
    assert NoteOk(d, j) && NoteListed(t, d.notes[j]);
    forall i | 0 <= i < |d.notes| && i != j
      ensures d.notes[i].note != d.notes[j].note
    {
      assert NoteOk(d, i);
    }
    var k :| 0 <= k <= |d.clones| && NoteParent(d, d.notes[j], k) && NoteOrdered(d, j, k);
  }

  lemma {:induction false} RunMoves(t: Tree, d: Descriptor, home: Uuid, rev: nat, j: nat)
    requires Accepted(d) && ListsSubtree(t, d) && FreshTargets(t, d) && NoSelfPairs(d) && j <= |d.notes|
    ensures RunTo(t, d, home, rev, d.first + 1 + |d.clones| + j) == t + Created(d, home, |d.clones|) + Moved(t, d, j)
  {
    hide *;
    var c := d.first + |d.clones| + j;
    if j == 0 {
      RunCreates(t, d, home, rev, |d.clones|);
      NoneMoved(t, d, home);
    } else {
      RunMoves(t, d, home, rev, j - 1);
      MoveItem(d, j - 1);
      RunStep(t, d, home, rev, c);
      MoveStep(t, d, home, j - 1);
      ApplyMove(t + Created(d, home, |d.clones|), t, d, home, rev, j - 1);
    }
  }

  lemma NoneMoved(t: Tree, d: Descriptor, home: Uuid)
    ensures t + Created(d, home, |d.clones|) + Moved(t, d, 0) == t + Created(d, home, |d.clones|)
  {
  }

  lemma MoveItem(d: Descriptor, j: nat)
    requires Accepted(d) && j < |d.notes|
    ensures d.first + 1 + |d.clones| + j <= d.last && ItemAt(d, d.first + 1 + |d.clones| + j) == Move(j)
  {
    Span(d);
  }

  lemma ApplyMove(a: Tree, t: Tree, d: Descriptor, home: Uuid, rev: nat, j: nat)
    requires j < |d.notes| && var m := d.notes[j]; var now := a + Moved(t, d, j);
             m.note in t && m.note in now && now[m.note] == t[m.note]
    ensures Apply(a + Moved(t, d, j), EventOf(d, home, rev, Move(j))) == a + Moved(t, d, j + 1)
  {
  }

  function Rewritten(t: Tree, d: Descriptor, home: Uuid): Tree {
    t + Created(d, home, |d.clones|) + Moved(t, d, |d.notes|)
  }

  lemma RunNoDeletes(t: Tree, d: Descriptor, home: Uuid, rev: nat)
    requires Accepted(d) && ListsSubtree(t, d) && FreshTargets(t, d) && NoSelfPairs(d)
    ensures RunTo(t, d, home, rev, DeleteStart(d)) == Rewritten(t, d, home) - Gone(d, DeleteStart(d))
  {
    hide *;
    StartIs(d);
    NoneGone(t, d, home);
    RunMoves(t, d, home, rev, |d.notes|);
  }

  lemma StartIs(d: Descriptor)
    ensures DeleteStart(d) == d.first + 1 + |d.clones| + |d.notes|
  {
  }

  lemma {:induction false} RunDeletes(t: Tree, d: Descriptor, home: Uuid, rev: nat, c: nat)
    requires Accepted(d) && ListsSubtree(t, d) && FreshTargets(t, d) && NoSelfPairs(d) && DeleteStart(d) <= c <= d.last
    ensures RunTo(t, d, home, rev, c) == Rewritten(t, d, home) - Gone(d, c)
  {
    hide *;
    if c <= DeleteStart(d) {
      RunNoDeletes(t, d, home, rev);
    } else {
      RunDeletes(t, d, home, rev, c - 1);
      StartIs(d);
      DeleteItem(d, c - 1);
      RunStep(t, d, home, rev, c - 1);
      ApplyDelete(t, d, home, rev, c - 1);
    }
  }

  lemma NoneGone(t: Tree, d: Descriptor, home: Uuid)
    ensures Rewritten(t, d, home) - Gone(d, DeleteStart(d)) == t + Created(d, home, |d.clones|) + Moved(t, d, |d.notes|)
  {
  }

  lemma ApplyDelete(t: Tree, d: Descriptor, home: Uuid, rev: nat, c: nat)
    requires DeleteStart(d) <= c && DeletedAt(d, c, |d.clones|) >= 0
    ensures Apply(Rewritten(t, d, home) - Gone(d, c), EventOf(d, home, rev, CloneDelete(DeletedAt(d, c, |d.clones|))))
            == Rewritten(t, d, home) - Gone(d, c + 1)
  {
    hide Rewritten;
  }

  lemma DeleteItem(d: Descriptor, c: nat)
    requires Accepted(d) && DeleteStart(d) <= c < d.last
    ensures DeletedAt(d, c, |d.clones|) >= 0 && ItemAt(d, c) == CloneDelete(DeletedAt(d, c, |d.clones|))
  {
    DeletesFillRange(d, c);
  }

  // ---------------------------------------------------------------- legality

  /** Nothing that was in the tree hangs below a new folder. */
  lemma NoOldChildren(t: Tree, key: Key, d: Descriptor, k: nat, x: Uuid)
    requires Accepted(d) && WellFormed(t, key) && FreshTargets(t, d) && NoSelfPairs(d) && k <= |d.clones| && x in t
    ensures t[x].parent != SlotTarget(d, k) && SlotTarget(d, k) != NIL
  {
    assert SlotTarget(d, k) != SlotSource(d, k) by {
      assert k > 0 ==> d.clones[k - 1].original != d.clones[k - 1].recovered;
    }
    assert k > 0 ==> CloneOk(d, k - 1);
  }

  /** Where clone i hangs, in both trees. */
  lemma CloneHome(t: Tree, d: Descriptor, i: nat) returns (k: nat)
    requires Accepted(d) && ListsSubtree(t, d) && i < |d.clones|
    ensures k <= i && CloneParent(d, i, k)
    ensures CloneListed(t, d.clones[i]) && ValidObjectId(d.clones[i].recovered)
  {
    assert CloneOk(d, i);
    k :| 0 <= k <= i && CloneParent(d, i, k);
  }

  /** The id x of the rewritten tree stands for y of the old one. */
  ghost predicate StandsFor(d: Descriptor, i: nat, j: nat, x: Uuid, y: Uuid)
    requires i <= |d.clones| && j <= |d.notes|
  {
    || (exists m :: 1 <= m <= i && x == SlotTarget(d, m) && y == SlotSource(d, m))
    || (x == y && exists n :: 0 <= n < j && d.notes[n].note == x)
  }

  /** What sits below the new folder of slot k stands for an equally named object below the old one. */
  lemma CreatedChild(t: Tree, d: Descriptor, home: Uuid, i: nat, m: nat, k: nat)
    requires Accepted(d) && ListsSubtree(t, d) && FreshTargets(t, d) && NoSelfPairs(d)
    requires m <= i <= |d.clones| && k <= |d.clones| && home in t && NewNode(d, home, m).parent == SlotTarget(d, k)
    ensures m > 0 && SlotSource(d, m) in t && t[SlotSource(d, m)].parent == SlotSource(d, k)
    ensures t[SlotSource(d, m)].name == NewNode(d, home, m).name
  {
    RolesDisjoint(t, d);
    hide Accepted, ListsSubtree, FreshTargets, NoSelfPairs;
    if m > 0 {
      var k' := CloneHome(t, d, m - 1);
    }
  }

  lemma NoteChild(t: Tree, d: Descriptor, n: nat, k: nat)
    requires Accepted(d) && ListsSubtree(t, d) && FreshTargets(t, d) && NoSelfPairs(d)
    requires n < |d.notes| && k <= |d.clones| && d.notes[n].targetParent == SlotTarget(d, k)
    ensures NoteListed(t, d.notes[n]) && t[d.notes[n].note].parent == SlotSource(d, k)
  {
    RolesDisjoint(t, d);
    NoteAt(t, d, n);
    hide Accepted, ListsSubtree, FreshTargets, NoSelfPairs;
    var k' :| 0 <= k' <= |d.clones| && NoteParent(d, d.notes[n], k');
  }

  lemma ChildOrigin(t: Tree, key: Key, d: Descriptor, home: Uuid, i: nat, j: nat, x: Uuid, k: nat) returns (y: Uuid)
    requires Accepted(d) && ListsSubtree(t, d) && FreshTargets(t, d) && NoSelfPairs(d) && WellFormed(t, key)
             && home in t
    requires i <= |d.clones| && j <= |d.notes| && k <= |d.clones|
    requires var now := t + Created(d, home, i) + Moved(t, d, j); x in now && now[x].parent == SlotTarget(d, k)
    ensures y in t && t[y].parent == SlotSource(d, k) && t[y].name == (t + Created(d, home, i) + Moved(t, d, j))[x].name
    ensures StandsFor(d, i, j, x, y)
  {
    hide Accepted, ListsSubtree, FreshTargets, NoSelfPairs, WellFormed, Created, Moved;
    if x in Moved(t, d, j) {
      MovedOnly(t, d, j, x);
      var n :| 0 <= n < j && d.notes[n].note == x;
      MovedHas(t, d, j, n);
      NoteChild(t, d, n, k);
      y := x;
    } else if x in Created(d, home, i) {
      CreatedOnly(d, home, i, x);
      var m :| 0 <= m <= i && SlotTarget(d, m) == x;
      AcceptedDistinct(d);
      CreatedHas(d, home, i, m);
      CreatedChild(t, d, home, i, m, k);
      y := SlotSource(d, m);
    } else {
      NoOldChildren(t, key, d, k, x);
      y := x;
    }
  }

  /** A name taken from the old tree is still free below the new folder. */
  lemma CopyNameFree(t: Tree, key: Key, d: Descriptor, home: Uuid, i: nat, j: nat, z: Uuid, model: Uuid, k: nat)
    requires Accepted(d) && ListsSubtree(t, d) && FreshTargets(t, d) && NoSelfPairs(d) && WellFormed(t, key)
             && home in t
    requires i <= |d.clones| && j <= |d.notes| && k <= |d.clones|
    requires model in t && t[model].parent == SlotSource(d, k)
    requires forall x :: x != z ==> !StandsFor(d, i, j, x, model)
    ensures FreeName(t + Created(d, home, i) + Moved(t, d, j), key, z, SlotTarget(d, k), t[model].name)
  {
    hide Accepted, ListsSubtree, FreshTargets, NoSelfPairs, Created, Moved, StandsFor;
    var now := t + Created(d, home, i) + Moved(t, d, j);
    forall x | x in now && x != z && now[x].parent == SlotTarget(d, k)
      ensures key(now[x].name) != key(t[model].name)
    {
      var y := ChildOrigin(t, key, d, home, i, j, x, k);
    }
  }

  lemma RootCreateLegal(t: Tree, key: Key, d: Descriptor, home: Uuid, rev: nat)
    requires Accepted(d) && Ready(t, key, d, home, rev) && NoSelfPairs(d)
    ensures LegalAt(t, key, d, home, rev, d.first)
  {
    assert SlotTarget(d, 0) == d.recovered && SlotSource(d, 0) == d.folder;
  }

  lemma CreateItem(d: Descriptor, i: nat)
    requires Accepted(d) && i < |d.clones|
    ensures d.first + 1 + i <= d.last && ItemAt(d, d.first + 1 + i) == CloneCreate(i)
  {
    Span(d);
  }

  lemma NewFolder(t: Tree, d: Descriptor, home: Uuid, i: nat, j: nat, k: nat)
    requires Accepted(d) && ListsSubtree(t, d) && FreshTargets(t, d) && NoSelfPairs(d)
    requires k <= i <= |d.clones| && j <= |d.notes|
    ensures IsFolder(t + Created(d, home, i) + Moved(t, d, j), SlotTarget(d, k))
  {
    AcceptedDistinct(d);
    CreatedHas(d, home, i, k);
    RolesDisjoint(t, d);
    hide Accepted, ListsSubtree, FreshTargets, NoSelfPairs, Created, Moved;
    if SlotTarget(d, k) in Moved(t, d, j) {
      MovedOnly(t, d, j, SlotTarget(d, k));
    }
  }

  lemma NotYetCopied(t: Tree, d: Descriptor, i: nat)
    requires Accepted(d) && ListsSubtree(t, d) && FreshTargets(t, d) && NoSelfPairs(d) && i < |d.clones|
    ensures SlotTarget(d, i + 1) !in t && forall k :: 0 <= k <= i ==> SlotTarget(d, k) != SlotTarget(d, i + 1)
    ensures forall x :: !StandsFor(d, i, 0, x, d.clones[i].original)
  {
    RolesDisjoint(t, d);
    hide Accepted, ListsSubtree, FreshTargets, NoSelfPairs;
    assert SlotSource(d, i + 1) == d.clones[i].original;
  }

  lemma CloneCreateLegal(t: Tree, key: Key, d: Descriptor, home: Uuid, rev: nat, i: nat)
    requires Accepted(d) && Ready(t, key, d, home, rev) && NoSelfPairs(d) && i < |d.clones|
    ensures d.first + 1 + i <= d.last && LegalAt(t, key, d, home, rev, d.first + 1 + i)
  {
    var k := CloneHome(t, d, i);
    RunCreates(t, d, home, rev, i);
    CreateItem(d, i);
    NotYetCopied(t, d, i);
    NewFolder(t, d, home, i, 0, k);
    assert t + Created(d, home, i) + Moved(t, d, 0) == t + Created(d, home, i);
    CopyNameFree(t, key, d, home, i, 0, d.clones[i].recovered, d.clones[i].original, k);
    hide Accepted, Ready, NoSelfPairs, RunTo, Created, ItemAt, FreeName, StandsFor;
    if d.clones[i].recovered in Created(d, home, i) {
      CreatedOnly(d, home, i, d.clones[i].recovered);
    }
  }

  lemma OnlyItselfStands(t: Tree, d: Descriptor, i: nat, j: nat, n: nat)
    requires Accepted(d) && ListsSubtree(t, d) && FreshTargets(t, d) && NoSelfPairs(d)
    requires i <= |d.clones| && j <= |d.notes| && n < |d.notes|
    ensures forall x :: x != d.notes[n].note ==> !StandsFor(d, i, j, x, d.notes[n].note)
  {
    RolesDisjoint(t, d);
    hide Accepted, ListsSubtree, FreshTargets, NoSelfPairs;
  }

  lemma MoveIntoCopy(t: Tree, key: Key, d: Descriptor, home: Uuid, rev: nat, j: nat)
    requires Accepted(d) && Ready(t, key, d, home, rev) && NoSelfPairs(d) && j < |d.notes|
    ensures Legal(t + Created(d, home, |d.clones|) + Moved(t, d, j), key, EventOf(d, home, rev, Move(j)))
  {
    var f := |d.clones|;
    NoteAt(t, d, j);
    var k :| 0 <= k <= f && NoteParent(d, d.notes[j], k);
    assert ListsSubtree(t, d) && FreshTargets(t, d) && WellFormed(t, key) && home in t;
    assert d.notes[j].targetParent == SlotTarget(d, k) && t[d.notes[j].note].parent == SlotSource(d, k);
    var m := d.notes[j];
    assert !t[m.note].isFolder && m.targetRevision == t[m.note].revision + 1 && t[m.note].name == m.name;
    hide *;
    MoveStep(t, d, home, j);
    NewFolder(t, d, home, f, j, k);
    OnlyItselfStands(t, d, f, j, j);
    CopyNameFree(t, key, d, home, f, j, m.note, m.note, k);
    MoveIsLegal(t + Created(d, home, f) + Moved(t, d, j), key, d, home, rev, j);
  }

  lemma MoveIsLegal(now: Tree, key: Key, d: Descriptor, home: Uuid, rev: nat, j: nat)
    requires j < |d.notes| && d.notes[j].note in now && !now[d.notes[j].note].isFolder
    requires d.notes[j].targetRevision == now[d.notes[j].note].revision + 1
    requires IsFolder(now, d.notes[j].targetParent)
             && FreeName(now, key, d.notes[j].note, d.notes[j].targetParent, d.notes[j].name)
    ensures Legal(now, key, EventOf(d, home, rev, Move(j)))
  {
  }

  lemma NoteMoveLegal(t: Tree, key: Key, d: Descriptor, home: Uuid, rev: nat, j: nat)
    requires Accepted(d) && Ready(t, key, d, home, rev) && NoSelfPairs(d) && j < |d.notes|
    ensures d.first + 1 + |d.clones| + j <= d.last && LegalAt(t, key, d, home, rev, d.first + 1 + |d.clones| + j)
  {
    MoveItem(d, j);
    hide Accepted, NoSelfPairs, RunTo, Created, Moved, ItemAt, WellFormed, FreshTargets, ListsSubtree, Legal, EventOf;
    RunMoves(t, d, home, rev, j);
    MoveIntoCopy(t, key, d, home, rev, j);
  }

  /** An old folder of slot k at the moment its deletion is due: still there, unchanged, and empty. */
  lemma OldFolderThere(t: Tree, d: Descriptor, home: Uuid, k: nat, c: nat)
    requires Accepted(d) && ListsSubtree(t, d) && FreshTargets(t, d) && NoSelfPairs(d) && k <= |d.clones|
    requires c == SlotDelete(d, k)
    ensures DeleteStart(d) <= c <= d.last
    ensures SlotSource(d, k) in Rewritten(t, d, home) - Gone(d, c)
    ensures SlotSource(d, k) in t && (Rewritten(t, d, home) - Gone(d, c))[SlotSource(d, k)] == t[SlotSource(d, k)]
  {
    var x := SlotSource(d, k);
    assert k > 0 ==> CloneOk(d, k - 1);
    Span(d);
    RolesDisjoint(t, d);
    hide Accepted, ListsSubtree, FreshTargets, NoSelfPairs, Created, Moved, Gone, CloneOk;
    if x in Moved(t, d, |d.notes|) {
      MovedOnly(t, d, |d.notes|, x);
    }
    if x in Created(d, home, |d.clones|) {
      CreatedOnly(d, home, |d.clones|, x);
    }
    NotGoneYet(t, d, k);
  }

  lemma NotGoneYet(t: Tree, d: Descriptor, k: nat)
    requires Accepted(d) && ListsSubtree(t, d) && FreshTargets(t, d) && NoSelfPairs(d) && k <= |d.clones|
    requires DeleteStart(d) <= SlotDelete(d, k) <= d.last
    ensures SlotSource(d, k) !in Gone(d, SlotDelete(d, k))
  {
    RolesDisjoint(t, d);
    GoneAt(d, SlotDelete(d, k));
    hide Accepted, ListsSubtree, FreshTargets, NoSelfPairs, Gone;
    assert forall i :: 0 <= i < |d.clones| ==> SlotSource(d, i + 1) == d.clones[i].original;
    if SlotSource(d, k) in Gone(d, SlotDelete(d, k)) {
      assert false;
    }
  }

  lemma OldChildGone(t: Tree, d: Descriptor, k: nat, i: nat, c: nat)
    requires Accepted(d) && ListsSubtree(t, d) && FreshTargets(t, d) && NoSelfPairs(d) && k <= |d.clones|
             && i < |d.clones|
    requires c == SlotDelete(d, k) && DeleteStart(d) <= c <= d.last
             && t[d.clones[i].original].parent == SlotSource(d, k)
    ensures d.clones[i].original in Gone(d, c)
  {
    RolesDisjoint(t, d);
    var k' := CloneHome(t, d, i);
    GoneAt(d, c);
  }

  lemma OldFolderEmpty(t: Tree, key: Key, d: Descriptor, home: Uuid, k: nat, c: nat, x: Uuid)
    requires Accepted(d) && ListsSubtree(t, d) && FreshTargets(t, d) && NoSelfPairs(d) && k <= |d.clones|
    requires home in t && !IsSource(d, home)
    requires c == SlotDelete(d, k) && DeleteStart(d) <= c <= d.last && x in Rewritten(t, d, home) - Gone(d, c)
    ensures Rewritten(t, d, home)[x].parent != SlotSource(d, k)
  {
    hide *;
    RewrittenIs(t, d, home, x);
    if x in Moved(t, d, |d.notes|) {
      MovedElsewhere(t, d, k, x);
    } else if x in Created(d, home, |d.clones|) {
      CreatedElsewhere(t, d, home, k, x);
    } else if t[x].parent == SlotSource(d, k) {
      UnmovedChild(t, d, x, k);
      var i :| 0 <= i < |d.clones| && d.clones[i].original == x;
      OldChildGone(t, d, k, i, c);
    }
  }

  lemma RewrittenIs(t: Tree, d: Descriptor, home: Uuid, x: Uuid)
    requires x in Rewritten(t, d, home)
    ensures x in Moved(t, d, |d.notes|) || x in Created(d, home, |d.clones|) || x in t
    ensures Rewritten(t, d, home)[x] ==
            if x in Moved(t, d, |d.notes|) then Moved(t, d, |d.notes|)[x]
            else if x in Created(d, home, |d.clones|) then Created(d, home, |d.clones|)[x]
            else t[x]
  {
    hide Moved, Created;
  }

  lemma MovedElsewhere(t: Tree, d: Descriptor, k: nat, x: Uuid)
    requires Accepted(d) && ListsSubtree(t, d) && FreshTargets(t, d) && NoSelfPairs(d) && k <= |d.clones|
    requires x in Moved(t, d, |d.notes|)
    ensures Moved(t, d, |d.notes|)[x].parent != SlotSource(d, k)
  {
    RolesDisjoint(t, d);
    hide Accepted, ListsSubtree, FreshTargets, NoSelfPairs, Moved;
    MovedOnly(t, d, |d.notes|, x);
    var n :| 0 <= n < |d.notes| && d.notes[n].note == x;
    MovedHas(t, d, |d.notes|, n);
    NoteAt(t, d, n);
  }

  lemma CreatedElsewhere(t: Tree, d: Descriptor, home: Uuid, k: nat, x: Uuid)
    requires Accepted(d) && ListsSubtree(t, d) && FreshTargets(t, d) && NoSelfPairs(d) && k <= |d.clones|
    requires !IsSource(d, home) && x in Created(d, home, |d.clones|)
    ensures Created(d, home, |d.clones|)[x].parent != SlotSource(d, k)
  {
    hide *;
    CreatedOnly(d, home, |d.clones|, x);
    var m :| 0 <= m <= |d.clones| && SlotTarget(d, m) == x;
    AcceptedDistinct(d);
    CreatedHas(d, home, |d.clones|, m);
    if m == 0 {
      RootNodeElsewhere(d, home, k);
    } else {
      var at := CloneHome(t, d, m - 1);
      CloneNode(d, home, m, at);
      TargetNotSource(t, d, at, k);
    }
  }

  lemma RootNodeElsewhere(d: Descriptor, home: Uuid, k: nat)
    requires !IsSource(d, home) && k <= |d.clones|
    ensures NewNode(d, home, 0).parent != SlotSource(d, k)
  {
  }

  lemma CloneNode(d: Descriptor, home: Uuid, m: nat, k: nat)
    requires 0 < m <= |d.clones| && k <= m - 1 && CloneParent(d, m - 1, k)
    ensures NewNode(d, home, m).parent == SlotTarget(d, k)
  {
  }

  lemma TargetNotSource(t: Tree, d: Descriptor, j: nat, k: nat)
    requires Accepted(d) && ListsSubtree(t, d) && FreshTargets(t, d) && NoSelfPairs(d) && j <= |d.clones|
             && k <= |d.clones|
    ensures SlotTarget(d, j) != SlotSource(d, k)
  {
    hide *;
    RolesDisjoint(t, d);
  }

  lemma UnmovedChild(t: Tree, d: Descriptor, x: Uuid, k: nat)
    requires Accepted(d) && ListsSubtree(t, d) && k <= |d.clones|
    requires x in t && t[x].parent == SlotSource(d, k) && x !in Moved(t, d, |d.notes|)
    ensures exists i :: 0 <= i < |d.clones| && d.clones[i].original == x
  {
    assert IsSource(d, t[x].parent);
    assert IsNote(d, x) || (IsSource(d, x) && x != d.folder);
    hide Accepted, ListsSubtree, Moved;
    if IsNote(d, x) {
      var j :| 0 <= j < |d.notes| && d.notes[j].note == x;
      MovedHas(t, d, |d.notes|, j);
    } else {
      var m :| 0 <= m <= |d.clones| && SlotSource(d, m) == x;
      assert d.clones[m - 1].original == x;
    }
  }

  lemma DeleteLegal(t: Tree, key: Key, d: Descriptor, home: Uuid, rev: nat, k: nat)
    requires Accepted(d) && Ready(t, key, d, home, rev) && NoSelfPairs(d) && k <= |d.clones|
    ensures d.first <= SlotDelete(d, k) <= d.last && LegalAt(t, key, d, home, rev, SlotDelete(d, k))
  {
    var c := SlotDelete(d, k);
    OldFolderThere(t, d, home, k, c);
    RunDeletes(t, d, home, rev, c);
    DeleteEvent(t, key, d, home, rev, k);
    var now := Rewritten(t, d, home) - Gone(d, c);
    forall x | x in now
      ensures now[x].parent != SlotSource(d, k)
    {
      OldFolderEmpty(t, key, d, home, k, c, x);
    }
    hide Accepted, Ready, NoSelfPairs, RunTo, Rewritten, Gone, ItemAt;
  }

  lemma DeleteEvent(t: Tree, key: Key, d: Descriptor, home: Uuid, rev: nat, k: nat)
    requires Accepted(d) && Ready(t, key, d, home, rev) && k <= |d.clones|
    ensures d.first <= SlotDelete(d, k) <= d.last && IsFolder(t, SlotSource(d, k))
    ensures EventOf(d, home, rev, ItemAt(d, SlotDelete(d, k)))
            == DeleteFolder(SlotSource(d, k), t[SlotSource(d, k)].revision + 1)
  {
    assert k > 0 ==> CloneListed(t, d.clones[k - 1]);
    assert IsFolder(t, d.folder) && t[d.folder].revision == rev;
    hide Accepted, Ready, ItemAt, RunTo;
    if k > 0 {
      ItemUnique(d, CloneDelete(k - 1));
    } else {
      ItemUnique(d, RootDelete);
    }
  }

  /** The event of an item is legal when the item's cursor comes up. */
  predicate ItemLegal(t: Tree, key: Key, d: Descriptor, home: Uuid, rev: nat, item: Item) {
    HasItem(d, item) && d.first <= CursorOf(d, item) <= d.last && LegalAt(t, key, d, home, rev, CursorOf(d, item))
  }

  lemma ItemLegalAt(t: Tree, key: Key, d: Descriptor, home: Uuid, rev: nat, item: Item, c: nat)
    requires HasItem(d, item) && CursorOf(d, item) == c && d.first <= c <= d.last && LegalAt(t, key, d, home, rev, c)
    ensures ItemLegal(t, key, d, home, rev, item)
  {
  }

  lemma RootCreateItem(t: Tree, key: Key, d: Descriptor, home: Uuid, rev: nat)
    requires Accepted(d) && Ready(t, key, d, home, rev) && NoSelfPairs(d)
    ensures ItemLegal(t, key, d, home, rev, RootCreate)
  {
    hide Accepted, Ready, NoSelfPairs, LegalAt, ItemLegal;
    Span(d);
    RootCreateLegal(t, key, d, home, rev);
    ItemLegalAt(t, key, d, home, rev, RootCreate, d.first);
  }

  lemma CreateItemLegal(t: Tree, key: Key, d: Descriptor, home: Uuid, rev: nat, i: nat)
    requires Accepted(d) && Ready(t, key, d, home, rev) && NoSelfPairs(d) && i < |d.clones|
    ensures ItemLegal(t, key, d, home, rev, CloneCreate(i))
  {
    hide Accepted, Ready, NoSelfPairs, LegalAt, ItemLegal;
    CreateCursor(d, i);
    CloneCreateLegal(t, key, d, home, rev, i);
    ItemLegalAt(t, key, d, home, rev, CloneCreate(i), d.first + 1 + i);
  }

  lemma MoveItemLegal(t: Tree, key: Key, d: Descriptor, home: Uuid, rev: nat, j: nat)
    requires Accepted(d) && Ready(t, key, d, home, rev) && NoSelfPairs(d) && j < |d.notes|
    ensures ItemLegal(t, key, d, home, rev, Move(j))
  {
    hide Accepted, Ready, NoSelfPairs, LegalAt, ItemLegal;
    MoveCursor(d, j);
    NoteMoveLegal(t, key, d, home, rev, j);
    ItemLegalAt(t, key, d, home, rev, Move(j), d.first + 1 + |d.clones| + j);
  }

  lemma DeleteItemLegal(t: Tree, key: Key, d: Descriptor, home: Uuid, rev: nat, item: Item)
    requires Accepted(d) && Ready(t, key, d, home, rev) && NoSelfPairs(d) && HasItem(d, item)
             && (item.CloneDelete? || item.RootDelete?)
    ensures ItemLegal(t, key, d, home, rev, item)
  {
    hide Accepted, Ready, NoSelfPairs, LegalAt, ItemLegal;
    var k := if item.CloneDelete? then item.k + 1 else 0;
    DeleteLegal(t, key, d, home, rev, k);
    ItemLegalAt(t, key, d, home, rev, item, SlotDelete(d, k));
  }

  lemma LegalItem(t: Tree, key: Key, d: Descriptor, home: Uuid, rev: nat, item: Item)
    requires Accepted(d) && Ready(t, key, d, home, rev) && NoSelfPairs(d) && HasItem(d, item)
    ensures ItemLegal(t, key, d, home, rev, item)
  {
    hide Accepted, Ready, NoSelfPairs, ItemLegal;
    match item {
      case RootCreate => RootCreateItem(t, key, d, home, rev);
      case CloneCreate(i) => CreateItemLegal(t, key, d, home, rev, i);
      case Move(j) => MoveItemLegal(t, key, d, home, rev, j);
      case _ => DeleteItemLegal(t, key, d, home, rev, item);
    }
  }

  /** Without self pairs every event is legal when its cursor comes up. */
  lemma ReplayLegal(t: Tree, key: Key, d: Descriptor, home: Uuid, rev: nat)
    requires Accepted(d) && Ready(t, key, d, home, rev) && NoSelfPairs(d)
    ensures Replayable(t, key, d, home, rev)
  {
    hide Accepted, Ready, NoSelfPairs, LegalAt, ItemAt;
    forall c | d.first <= c <= d.last
      ensures LegalAt(t, key, d, home, rev, c)
    {
      LegalItem(t, key, d, home, rev, ItemAt(d, c));
      ItemCursor(d, c);
    }
  }

  lemma CreateCursor(d: Descriptor, i: nat)
    requires Accepted(d) && i < |d.clones|
    ensures d.clones[i].createCursor == d.first + 1 + i
  {
    assert CloneOk(d, i);
  }

  lemma MoveCursor(d: Descriptor, j: nat)
    requires Accepted(d) && j < |d.notes|
    ensures d.notes[j].moveCursor == d.first + 1 + |d.clones| + j
  {
    assert NoteOk(d, j);
  }

  /** A self-paired folder asks for a create of an id that already exists. */
  lemma SelfPairBlocks(t: Tree, key: Key, d: Descriptor, home: Uuid, rev: nat)
    requires Accepted(d) && Ready(t, key, d, home, rev) && !NoSelfPairs(d)
    ensures !Replayable(t, key, d, home, rev)
  {
    Span(d);
    if d.folder == d.recovered {
      assert !LegalAt(t, key, d, home, rev, d.first);
    } else {
      var i :| 0 <= i < |d.clones| && d.clones[i].original == d.clones[i].recovered;
      assert CloneListed(t, d.clones[i]);
      hide Accepted, Ready, NoSelfPairs, RunTo, Created, ItemAt;
      RunCreates(t, d, home, rev, i);
      CreateItem(d, i);
      assert !LegalAt(t, key, d, home, rev, d.first + 1 + i);
    }
  }

  /** An accepted descriptor of a folder's exact subtree can be replayed exactly when no folder is paired with
      itself. */
  lemma ReplayableIff(t: Tree, key: Key, d: Descriptor, home: Uuid, rev: nat)
    requires Accepted(d) && Ready(t, key, d, home, rev)
    ensures Replayable(t, key, d, home, rev) <==> NoSelfPairs(d)
  {
    if NoSelfPairs(d) {
      ReplayLegal(t, key, d, home, rev);
    } else {
      SelfPairBlocks(t, key, d, home, rev);
    }
  }

  /** What the insertion guard of the clones' table asks of the i-th clone's ids. */
  predicate CloneGuard(d: Descriptor, i: nat)
    requires i < |d.clones|
  {
    var c := d.clones[i];
    && c.original != c.recovered && c.original !in {d.folder, d.recovered} && c.recovered !in {d.folder, d.recovered}
    && forall j :: 0 <= j < i ==>
         c.original !in {d.clones[j].original, d.clones[j].recovered}
             && c.recovered !in {d.clones[j].original, d.clones[j].recovered}
  }

  /** The descriptor gets past the decoding of the server's answer, which compares the folder with the recovered root,
      and past the guard. */
  predicate Sealable(d: Descriptor) {
    d.recovered != d.folder && forall i :: 0 <= i < |d.clones| ==> CloneGuard(d, i)
  }

  /** Beyond the completion check, decoding and guard turn away exactly the self-paired folders. */
  lemma SealableIs(d: Descriptor)
    requires Accepted(d)
    ensures Sealable(d) <==> NoSelfPairs(d)
  {
    forall i | 0 <= i < |d.clones|
      ensures CloneGuard(d, i) <==> d.clones[i].original != d.clones[i].recovered
    {
      GuardIs(d, i);
    }
    hide Accepted, CloneGuard;
  }

  lemma GuardIs(d: Descriptor, i: nat)
    requires Accepted(d) && i < |d.clones|
    ensures CloneGuard(d, i) <==> d.clones[i].original != d.clones[i].recovered
  {
    var c := d.clones[i];
    assert CloneOk(d, i);
    hide Accepted, ClonePlaced, CloneOrdered, ValidComponent, ValidObjectId;
    forall k | 0 <= k <= i
      ensures c.original !in {SlotSource(d, k), SlotTarget(d, k)}
              && c.recovered !in {SlotSource(d, k), SlotTarget(d, k)}
    {
    }
    assert SlotSource(d, 0) == d.folder && SlotTarget(d, 0) == d.recovered;
    forall j | 0 <= j < i
      ensures c.original !in {d.clones[j].original, d.clones[j].recovered}
              && c.recovered !in {d.clones[j].original, d.clones[j].recovered}
    {
      assert SlotSource(d, j + 1) == d.clones[j].original && SlotTarget(d, j + 1) == d.clones[j].recovered;
    }
  }

  /** So of the descriptors the completion check accepts, exactly those that can be replayed are sealed. */
  lemma SealedIff(t: Tree, key: Key, d: Descriptor, home: Uuid, rev: nat)
    requires Accepted(d) && Ready(t, key, d, home, rev)
    ensures Sealable(d) <==> Replayable(t, key, d, home, rev)
  {
    hide *;
    SealableIs(d);
    ReplayableIff(t, key, d, home, rev);
  }

  // ---------------------------------------------------------------- the copy

  /** The tree after the last event. */
  function Outcome(t: Tree, d: Descriptor, home: Uuid, rev: nat): Tree {
    RunTo(t, d, home, rev, d.last + 1)
  }

  lemma OutcomeIs(t: Tree, key: Key, d: Descriptor, home: Uuid, rev: nat)
    requires Accepted(d) && Ready(t, key, d, home, rev) && NoSelfPairs(d)
    ensures DeleteStart(d) <= d.last
    ensures Outcome(t, d, home, rev) == Rewritten(t, d, home) - Gone(d, d.last) - {d.folder}
  {
    Span(d);
    RunDeletes(t, d, home, rev, d.last);
    DeleteEvent(t, key, d, home, rev, 0);
    hide Accepted, Ready, NoSelfPairs, Rewritten, Gone, ItemAt;
  }

  /** Old ids to new ones: every source folder becomes its recovered folder, everything else keeps its id. */
  function Image(d: Descriptor, x: Uuid): Uuid {
    if x in Targets(d, |d.clones|) then Targets(d, |d.clones|)[x] else x
  }

  lemma ImageOf(d: Descriptor, x: Uuid)
    requires Accepted(d)
    ensures !IsSource(d, x) ==> Image(d, x) == x
    ensures forall k :: 0 <= k <= |d.clones| && SlotSource(d, k) == x ==> Image(d, x) == SlotTarget(d, k)
  {
    TablesHold(d, |d.clones|);
    hide Accepted, Targets;
  }

  lemma GoneAll(d: Descriptor, x: Uuid)
    requires Accepted(d) && DeleteStart(d) <= d.last
    ensures x in Gone(d, d.last) + {d.folder} <==> IsSource(d, x)
  {
    GoneAt(d, d.last);
    forall i | 0 <= i < |d.clones|
      ensures d.clones[i].deleteCursor < d.last
    {
      assert CloneOk(d, i);
    }
    hide Accepted, Gone;
    if IsSource(d, x) {
      var k :| 0 <= k <= |d.clones| && SlotSource(d, k) == x;
      assert k > 0 ==> d.clones[k - 1].original == x;
    }
    if x in Gone(d, d.last) {
      var i :| 0 <= i < |d.clones| && d.clones[i].original == x;
      assert SlotSource(d, i + 1) == x;
    }
    assert SlotSource(d, 0) == d.folder;
  }

  /** The object x of the old tree, apart from the deleted root, in the new tree. */
  ghost predicate CopiedTo(t: Tree, after: Tree, d: Descriptor, x: Uuid)
    requires x in t
  {
    var y := Image(d, x);
    && y in after
    && after[y].isFolder == t[x].isFolder && after[y].name == t[x].name
    && after[y].parent == Image(d, t[x].parent)
    && (!t[x].isFolder ==> after[y].hash == t[x].hash)
    && (!IsSource(d, x) && !IsNote(d, x) ==> after[y] == t[x])
  }

  lemma FolderCopied(t: Tree, key: Key, d: Descriptor, home: Uuid, rev: nat, i: nat)
    requires Accepted(d) && Ready(t, key, d, home, rev) && NoSelfPairs(d) && i < |d.clones|
    ensures d.clones[i].original in t && CopiedTo(t, Outcome(t, d, home, rev), d, d.clones[i].original)
  {
    OutcomeIs(t, key, d, home, rev);
    var k := CloneHome(t, d, i);
    NewFolder(t, d, home, |d.clones|, |d.notes|, i + 1);
    AcceptedDistinct(d);
    CreatedHas(d, home, |d.clones|, i + 1);
    ImageOf(d, d.clones[i].original);
    ImageOf(d, SlotSource(d, k));
    RolesDisjoint(t, d);
    hide Accepted, Ready, NoSelfPairs, Created, Moved, Gone, Image, Outcome;
    assert SlotSource(d, i + 1) == d.clones[i].original;
    GoneAll(d, d.clones[i].recovered);
    if d.clones[i].recovered in Moved(t, d, |d.notes|) {
      MovedOnly(t, d, |d.notes|, d.clones[i].recovered);
    }
  }

  lemma NoteCopied(t: Tree, key: Key, d: Descriptor, home: Uuid, rev: nat, j: nat)
    requires Accepted(d) && Ready(t, key, d, home, rev) && NoSelfPairs(d) && j < |d.notes|
    ensures d.notes[j].note in t && CopiedTo(t, Outcome(t, d, home, rev), d, d.notes[j].note)
  {
    OutcomeIs(t, key, d, home, rev);
    NoteAt(t, d, j);
    var k :| 0 <= k <= |d.clones| && NoteParent(d, d.notes[j], k);
    MovedHas(t, d, |d.notes|, j);
    ImageOf(d, d.notes[j].note);
    ImageOf(d, SlotSource(d, k));
    RolesDisjoint(t, d);
    hide Accepted, Ready, NoSelfPairs, Created, Moved, Gone, Image, Outcome;
    GoneAll(d, d.notes[j].note);
  }

  lemma RestKept(t: Tree, key: Key, d: Descriptor, home: Uuid, rev: nat, x: Uuid)
    requires Accepted(d) && Ready(t, key, d, home, rev) && NoSelfPairs(d)
    requires x in t && !IsSource(d, x) && !IsNote(d, x)
    ensures CopiedTo(t, Outcome(t, d, home, rev), d, x)
  {
    OutcomeIs(t, key, d, home, rev);
    assert !IsSource(d, t[x].parent);
    ImageOf(d, x);
    ImageOf(d, t[x].parent);
    RolesDisjoint(t, d);
    hide Accepted, Ready, NoSelfPairs, Created, Moved, Gone, Image, Outcome;
    GoneAll(d, x);
    if x in Moved(t, d, |d.notes|) {
      MovedOnly(t, d, |d.notes|, x);
    }
    if x in Created(d, home, |d.clones|) {
      CreatedOnly(d, home, |d.clones|, x);
    }
  }

  lemma ObjectCopied(t: Tree, key: Key, d: Descriptor, home: Uuid, rev: nat, x: Uuid)
    requires Accepted(d) && Ready(t, key, d, home, rev) && NoSelfPairs(d) && x in t && x != d.folder
    ensures CopiedTo(t, Outcome(t, d, home, rev), d, x)
  {
    hide Accepted, Ready, NoSelfPairs, CopiedTo;
    if IsSource(d, x) {
      var k :| 0 <= k <= |d.clones| && SlotSource(d, k) == x;
      FolderCopied(t, key, d, home, rev, k - 1);
    } else if IsNote(d, x) {
      var j :| 0 <= j < |d.notes| && d.notes[j].note == x;
      NoteCopied(t, key, d, home, rev, j);
    } else {
      RestKept(t, key, d, home, rev, x);
    }
  }

  /** Nothing is in the new tree but the images of the old one. */
  lemma OnlyImages(t: Tree, key: Key, d: Descriptor, home: Uuid, rev: nat, y: Uuid)
    requires Accepted(d) && Ready(t, key, d, home, rev) && NoSelfPairs(d) && y in Outcome(t, d, home, rev)
    ensures exists x :: x in t && Image(d, x) == y
  {
    OutcomeIs(t, key, d, home, rev);
    GoneAll(d, y);
    RolesDisjoint(t, d);
    hide Accepted, Ready, NoSelfPairs, Created, Moved, Gone, Outcome, Image;
    if y in Created(d, home, |d.clones|) {
      CreatedOnly(d, home, |d.clones|, y);
      var k :| 0 <= k <= |d.clones| && SlotTarget(d, k) == y;
      ImageOf(d, SlotSource(d, k));
    } else {
      ImageOf(d, y);
      if y in Moved(t, d, |d.notes|) {
        MovedOnly(t, d, |d.notes|, y);
      }
    }
  }

  /** Different objects keep different ids. */
  lemma ImageInjective(t: Tree, key: Key, d: Descriptor, home: Uuid, rev: nat, x: Uuid, y: Uuid)
    requires Accepted(d) && Ready(t, key, d, home, rev) && NoSelfPairs(d) && x in t && y in t && x != y
    ensures Image(d, x) != Image(d, y)
  {
    RolesDisjoint(t, d);
    ImageOf(d, x);
    ImageOf(d, y);
    hide Accepted, Ready, NoSelfPairs, Image;
  }

  /** The new root carries the recovered name at its new home. */
  lemma RootCopied(t: Tree, key: Key, d: Descriptor, home: Uuid, rev: nat)
    requires Accepted(d) && Ready(t, key, d, home, rev) && NoSelfPairs(d)
    ensures d.recovered in Outcome(t, d, home, rev) && Image(d, d.folder) == d.recovered
    ensures Outcome(t, d, home, rev)[d.recovered] == Node(true, home, d.recoveredName, 1, [])
  {
    OutcomeIs(t, key, d, home, rev);
    AcceptedDistinct(d);
    CreatedHas(d, home, |d.clones|, 0);
    NewFolder(t, d, home, |d.clones|, |d.notes|, 0);
    ImageOf(d, d.folder);
    RolesDisjoint(t, d);
    hide Accepted, Ready, NoSelfPairs, Created, Moved, Gone, Image, Outcome;
    assert SlotTarget(d, 0) == d.recovered && SlotSource(d, 0) == d.folder;
    GoneAll(d, d.recovered);
    if d.recovered in Moved(t, d, |d.notes|) {
      MovedOnly(t, d, |d.notes|, d.recovered);
    }
  }

  /** The outcome is the old tree under the id map: same shape, names and notes, with the folder gone from its old
      place and a copy of it, under its new id and name, at the new home. */
  lemma ReplayCopies(t: Tree, key: Key, d: Descriptor, home: Uuid, rev: nat)
    requires Accepted(d) && Ready(t, key, d, home, rev) && NoSelfPairs(d)
    ensures var after := Outcome(t, d, home, rev);
            && (forall x :: x in t && x != d.folder ==> CopiedTo(t, after, d, x))
            && d.recovered in after && after[d.recovered] == Node(true, home, d.recoveredName, 1, [])
            && (forall y :: y in after ==> exists x :: x in t && Image(d, x) == y)
            && (forall x, y :: x in t && y in t && x != y ==> Image(d, x) != Image(d, y))
            && (forall x :: IsSource(d, x) ==> x !in after)
  {
    RootCopied(t, key, d, home, rev);
    OutcomeIs(t, key, d, home, rev);
    hide Accepted, Ready, NoSelfPairs, CopiedTo, Outcome, Image, Rewritten, Gone;
    forall x | x in t && x != d.folder
      ensures CopiedTo(t, Outcome(t, d, home, rev), d, x)
    {
      ObjectCopied(t, key, d, home, rev, x);
    }
    forall y | y in Outcome(t, d, home, rev)
      ensures exists x :: x in t && Image(d, x) == y
    {
      OnlyImages(t, key, d, home, rev, y);
    }
    forall x, y | x in t && y in t && x != y
      ensures Image(d, x) != Image(d, y)
    {
      ImageInjective(t, key, d, home, rev, x, y);
    }
    forall x | IsSource(d, x)
      ensures x !in Outcome(t, d, home, rev)
    {
      GoneAll(d, x);
    }
  }

  /** A descriptor of valid ids the completion check accepts and a tree it lists, with its one clone paired with itself:
      the replay would fail, and it takes the guard of the table to stop it. */
  lemma SelfPairAccepted() returns (t: Tree, key: Key, d: Descriptor, home: Uuid)
    ensures ValidObjectId(d.folder) && ValidObjectId(d.recovered) && ValidObjectId(home)
    ensures forall i :: 0 <= i < |d.clones| ==>
              ValidObjectId(d.clones[i].original) && ValidObjectId(d.clones[i].recovered)
    ensures Accepted(d) && Ready(t, key, d, home, 1) && !Replayable(t, key, d, home, 1) && !Sealable(d)
  {
    var a, f, r := 0x8000_0000_0000_0001, 0x8000_0000_0000_0007, 0x8000_0000_0000_0008;
    home := 0x8000_0000_0000_0009;
    var c := Clone(a, a, f, r, 2, 3, 1, 1, "x");
    d := Descriptor(f, r, "y", 1, 4, [c], []);
    key := (s: string) => s;
    t := map[home := Node(true, NIL, "h", 1, []), f := Node(true, home, "r", 1, []), a := Node(true, f, "x", 1, [])];
    SmallIdValid(1);
    SmallIdValid(7);
    SmallIdValid(8);
    SmallIdValid(9);
    OneCloneAccepted(a, f, r, c, d);
    OneCloneReady(a, f, r, home, c, t, key, d);
    hide *;
    ReplayableIff(t, key, d, home, 1);
    SealedIff(t, key, d, home, 1);
  }

  lemma SmallIdValid(k: nat)
    requires k < 10
    ensures ValidObjectId(0x8000_0000_0000_0000 + k)
  {
  }

  lemma OneCloneAccepted(a: Uuid, f: Uuid, r: Uuid, c: Clone, d: Descriptor)
    requires ValidObjectId(a) && a != f && a != r && f != r
    requires c == Clone(a, a, f, r, 2, 3, 1, 1, "x") && d == Descriptor(f, r, "y", 1, 4, [c], [])
    ensures Accepted(d) && !NoSelfPairs(d)
  {
    SingleLetter('x');
    SingleLetter('y');
    hide ValidComponent, ValidObjectId;
    assert SlotSource(d, 0) == f && SlotTarget(d, 0) == r;
    assert CloneParent(d, 0, 0);
    assert CloneOk(d, 0);
    assert d.clones[0].original == d.clones[0].recovered;
  }

  lemma OneCloneReady(a: Uuid, f: Uuid, r: Uuid, home: Uuid, c: Clone, t: Tree, key: Key, d: Descriptor)
    requires a != f && a != r && f != r && home != a && home != f && home != r && NIL !in {a, f, r, home}
    requires c == Clone(a, a, f, r, 2, 3, 1, 1, "x") && d == Descriptor(f, r, "y", 1, 4, [c], [])
    requires t == map[home := Node(true, NIL, "h", 1, []), f := Node(true, home, "r", 1, []),
                      a := Node(true, f, "x", 1, [])]
    requires forall s :: key(s) == s
    ensures Ready(t, key, d, home, 1)
  {
    assert forall k :: 0 <= k <= 1 ==>
             SlotSource(d, k) == (if k == 0 then f else a) && SlotTarget(d, k) == (if k == 0 then r else a);
    assert IsSource(d, f) && IsSource(d, a) by {
      assert SlotSource(d, 0) == f && SlotSource(d, 1) == a;
    }
    assert ListsSubtree(t, d);
    assert WellFormed(t, key);
    assert FreshTargets(t, d);
    assert FreeName(t, key, NIL, home, "y");
  }
}
