/** Plans of changes the server itself could make: none of them is refused. */
module PreflightAccept {
  import opened Ids
  import opened Naming
  import opened Optional
  import opened Outbox
  import opened Inbox
  import opened Preflight
  import opened PreflightPlan

  type Tree = map<Uuid, Entry>

  /** From p, n steps up at most lead to the folder. */
  predicate Within(tree: Tree, p: Uuid, folder: Uuid, n: nat)
    decreases n
  {
    p == folder || (n > 0 && p in tree && Within(tree, tree[p].parent, folder, n - 1))
  }

  /** The change is one the server's tree can make: its folder is there, what it creates is new, and what it changes is
      there, with the kind, place and name it says; no folder goes into itself, and only empty ones are deleted. */
  ghost predicate TreeLegal(tree: Tree, change: Change) {
    var id, isFolder, parent := change.obj, change.otype == Folder, ParentId(change.parent);
    && (change.parent.Some? ==> parent in tree && tree[parent].isFolder)
    && match change.kind
       case Create => id !in tree
       case Update => !isFolder && id in tree && tree[id] == Entry(false, parent, change.name)
       case Move => id in tree && tree[id].isFolder == isFolder
           && (isFolder ==> forall n :: !Within(tree, parent, id, n))
       case Delete =>
         id in tree && tree[id] == Entry(isFolder, parent, change.name)
             && forall z :: z in tree ==> tree[z].parent != id
  }

  /** Nothing else in the same folder has the same portable name. */
  ghost predicate NameFree(key: Key, tree: Tree, change: Change) {
    forall z :: z in tree && tree[z].parent == ParentId(change.parent) && key(tree[z].name) == key(change.name) ==>
      z == change.obj
  }

  ghost predicate ServerStep(key: Key, tree: Tree, change: Change) {
    TreeLegal(tree, change) && (change.kind != Delete ==> NameFree(key, tree, change))
  }

  // ---------------------------------------------------------------- one step

  lemma EntryAt(objects: Objects, id: Uuid)
    ensures id in TreeOf(objects) <==> id in objects
    ensures id in objects ==> TreeOf(objects)[id] == EntryOf(objects[id])
  {
  }

  lemma TargetThere(objects: Objects, change: Change)
    requires TreeLegal(TreeOf(objects), change)
    ensures Target(objects, change.parent, change.name).Some?
    ensures change.parent.Some? ==>
              change.parent.value in objects && objects[change.parent.value].isFolder
              && Target(objects, change.parent, change.name).value == objects[change.parent.value].path + [change.name]
    ensures change.parent == None ==> Target(objects, change.parent, change.name).value == [change.name]
  {
  }

  lemma KeyLast(key: Key, path: Path)
    ensures |PathKey(key, path)| == |path|
    ensures path != [] ==> PathKey(key, path) == PathKey(key, path[..|path| - 1]) + [key(path[|path| - 1])]
  {
    KeyLength(key, path);
  }

  lemma SameEnds<T>(a: seq<T>, x: T, b: seq<T>, y: T)
    requires a + [x] == b + [y]
    ensures a == b && x == y
  {
    assert (a + [x])[..|a + [x]| - 1] == a && (b + [y])[..|b + [y]| - 1] == b;
    assert (a + [x])[|a + [x]| - 1] == x && (b + [y])[|b + [y]| - 1] == y;
  }

  lemma PlacedIs(objects: Objects, id: Uuid)
    requires Consistent(objects) && id in objects
    ensures var o := objects[id];
            && id != NIL && o.path != [] && (o.parent == NIL ==> |o.path| == 1)
            && (o.parent != NIL ==> o.parent in objects && objects[o.parent].path == o.path[..|o.path| - 1])
  {
    assert Placed(objects, id);
  }

  /** Two paths with one portable form lie in one folder and have one portable name. */
  lemma KeysMeet(key: Key, objects: Objects, change: Change, z: Uuid)
    requires Consistent(objects) && Apart(key, objects) && ValidIds(change) && z in objects
    requires TreeLegal(TreeOf(objects), change) && Target(objects, change.parent, change.name).Some?
    requires PathKey(key, objects[z].path) == PathKey(key, Target(objects, change.parent, change.name).value)
    ensures objects[z].path != [] && objects[z].parent == ParentId(change.parent)
    ensures key(objects[z].path[|objects[z].path| - 1]) == key(change.name)
  {
    assert change.parent.Some? ==> change.parent.value != NIL;
    assert ParentId(change.parent) == if change.parent == None then NIL else change.parent.value;
    var path, target := objects[z].path, Target(objects, change.parent, change.name).value;
    hide *;
    TargetThere(objects, change);
    PlacedIs(objects, z);
    KeyLast(key, path);
    KeyLast(key, target);
    assert |path| == |target|;
    SameEnds(PathKey(key, path[..|path| - 1]), key(path[|path| - 1]),
             PathKey(key, target[..|target| - 1]), key(target[|target| - 1]));
    if change.parent.Some? {
      var p := change.parent.value;
      assert target[..|target| - 1] == objects[p].path;
      PlacedIs(objects, p);
      ApartAt(key, objects, objects[z].parent, p);
    }
  }

  lemma FreeTarget(key: Key, objects: Objects, change: Change)
    requires Consistent(objects) && Apart(key, objects) && ValidIds(change) && TreeLegal(TreeOf(objects), change)
    requires NameFree(key, TreeOf(objects), change)
    ensures Free(key, objects, Target(objects, change.parent, change.name).value, change.obj)
  {
    TargetThere(objects, change);
    var target := Target(objects, change.parent, change.name).value;
    forall z | z in objects && PathKey(key, objects[z].path) == PathKey(key, target)
      ensures z == change.obj
    {
      KeysMeet(key, objects, change, z);
      EntryAt(objects, z);
    }
    hide Consistent, Apart, TreeLegal, PathKey, Target;
  }

  lemma EntryIs(o: Obj)
    requires o.path != []
    ensures EntryOf(o) == Entry(o.isFolder, o.parent, o.path[|o.path| - 1])
  {
  }

  /** What the tree has where the change says is on the path the change says. */
  lemma OnTarget(objects: Objects, change: Change, isFolder: bool)
    requires Consistent(objects) && ValidIds(change) && TreeLegal(TreeOf(objects), change) && change.obj in objects
    requires TreeOf(objects)[change.obj] == Entry(isFolder, ParentId(change.parent), change.name)
    requires Target(objects, change.parent, change.name).Some?
    ensures objects[change.obj].isFolder == isFolder
    ensures objects[change.obj].path == Target(objects, change.parent, change.name).value
  {
    var o := objects[change.obj];
    assert change.parent.Some? ==> change.parent.value != NIL;
    assert ParentId(change.parent) == if change.parent == None then NIL else change.parent.value;
    hide *;
    TargetThere(objects, change);
    PlacedIs(objects, change.obj);
    EntryAt(objects, change.obj);
    EntryIs(o);
    SplitLast(o.path);
    if change.parent == None {
      assert o.path[..|o.path| - 1] == [];
    }
  }

  lemma SplitLast(path: Path)
    requires path != []
    ensures path == path[..|path| - 1] + [path[|path| - 1]]
  {
  }

  /** A folder with a path below another's lies within it. */
  lemma {:induction false} BelowIsWithin(key: Key, objects: Objects, p: Uuid, folder: Uuid) returns (n: nat)
    requires Consistent(objects) && Apart(key, objects) && p in objects && folder in objects
    requires objects[folder].path <= objects[p].path
    ensures Within(TreeOf(objects), p, folder, n)
    decreases |objects[p].path|
  {
    assert Placed(objects, p) && Placed(objects, folder);
    EntryAt(objects, p);
    if objects[p].path == objects[folder].path {
      ApartAt(key, objects, p, folder);
      n := 0;
    } else {
      n := BelowIsWithin(key, objects, objects[p].parent, folder);
      n := n + 1;
    }
  }

  lemma NotBelow(key: Key, objects: Objects, change: Change)
    requires Consistent(objects) && Apart(key, objects) && ValidIds(change) && TreeLegal(TreeOf(objects), change)
    requires change.otype == Folder && change.kind == Move && change.obj in objects
    ensures objects[change.obj].path == Target(objects, change.parent, change.name).value
            || !(objects[change.obj].path <= Target(objects, change.parent, change.name).value)
  {
    TargetThere(objects, change);
    var target, path := Target(objects, change.parent, change.name).value, objects[change.obj].path;
    assert Placed(objects, change.obj);
    if path <= target && path != target && change.parent.Some? {
      assert path <= target[..|target| - 1] == objects[change.parent.value].path;
      var n := BelowIsWithin(key, objects, change.parent.value, change.obj);
      assert false;
    }
  }

  /** A folder no entry lies in has no path below it. */
  lemma {:induction false} NothingBelow(key: Key, objects: Objects, folder: Uuid, z: Uuid)
    requires Consistent(objects) && Apart(key, objects) && folder in objects && z in objects && z != folder
    requires forall x :: x in TreeOf(objects) ==> TreeOf(objects)[x].parent != folder
    ensures !(objects[folder].path <= objects[z].path)
    decreases |objects[z].path|
  {
    assert Placed(objects, z) && Placed(objects, folder);
    EntryAt(objects, z);
    if objects[folder].path <= objects[z].path {
      if objects[z].path == objects[folder].path {
        ApartAt(key, objects, z, folder);
      } else {
        NothingBelow(key, objects, folder, objects[z].parent);
      }
    }
  }

  lemma OwnFree(key: Key, objects: Objects, id: Uuid)
    requires Apart(key, objects) && id in objects
    ensures Free(key, objects, objects[id].path, id)
  {
    hide PathKey;
  }

  /** The step records of the plan allow the change: its object has none that says deleted, and none at all if it is
      created. */
  predicate RecordsAllow(p: Plans, change: Change) {
    change.obj in p.virtual ==> !p.virtual[change.obj].deleted && change.kind != Create
  }

  lemma SoundIs(key: Key, p: Plans)
    requires Sound(key, p)
    ensures Consistent(p.objects) && Apart(key, p.objects)
  {
    ExactIsApart(key, p.objects, p.owners);
    hide Exact, Consistent, Apart;
  }

  lemma NoteStepAllowed(key: Key, p: Plans, change: Change, facts: Facts)
    requires Sound(key, p) && ServerStep(key, TreeOf(p.objects), change) && ValidIds(change) && facts.ok
    requires RecordsAllow(p, change) && change.otype == Note
    ensures NoteAllowed(key, p, change, facts)
  {
    SoundIs(key, p);
    EntryAt(p.objects, change.obj);
    TargetThere(p.objects, change);
    hide Sound, Consistent, Apart, Free, Target, TreeOf, EntryOf, NameFree, PathKey;
    if change.kind == Update || change.kind == Delete {
      OnTarget(p.objects, change, false);
    }
    if change.kind != Delete {
      FreeTarget(key, p.objects, change);
    }
    NoteKind(p.objects, change);
  }

  lemma NoteKind(objects: Objects, change: Change)
    requires TreeLegal(TreeOf(objects), change) && change.otype == Note
    ensures change.kind != Create ==> IsNote(objects, change.obj)
    ensures change.kind == Create ==> change.obj !in objects
  {
    EntryAt(objects, change.obj);
  }

  lemma FolderKind(objects: Objects, change: Change)
    requires TreeLegal(TreeOf(objects), change) && change.otype == Folder
    ensures change.kind == Move || change.kind == Delete ==> IsFolder(objects, change.obj)
    ensures change.kind != Update
  {
    EntryAt(objects, change.obj);
  }

  lemma FolderStepAllowed(key: Key, p: Plans, change: Change, facts: Facts)
    requires Sound(key, p) && ServerStep(key, TreeOf(p.objects), change) && ValidIds(change)
    requires facts.ok && !facts.intent && change.otype == Folder
    ensures FolderAllowed(key, p, change, facts)
  {
    SoundIs(key, p);
    TargetThere(p.objects, change);
    FolderKind(p.objects, change);
    hide Sound, Consistent, Apart, Free, Target, EntryOf, NameFree, PathKey;
    match change.kind {
      case Create => FreeTarget(key, p.objects, change);
      case Update => assert false;
      case Move =>
        FreeTarget(key, p.objects, change);
        NotBelow(key, p.objects, change);
      case Delete =>
        OnTarget(p.objects, change, true);
        OwnFree(key, p.objects, change.obj);
        forall z | z in p.objects && z != change.obj
          ensures !(p.objects[change.obj].path <= p.objects[z].path)
        {
          NothingBelow(key, p.objects, change.obj, z);
        }
    }
  }

  // ---------------------------------------------------------------- the step records

  /** A step record comes from an earlier note step of its object, and one that says deleted from a delete. */
  ghost predicate Recorded(changes: seq<Change>, n: nat, p: Plans, id: Uuid)
    requires n <= |changes|
  {
    id in p.virtual ==>
      exists j :: 0 <= j < n && changes[j].obj == id && (p.virtual[id].deleted ==> changes[j].kind == Delete)
  }

  lemma RecordedLater(changes: seq<Change>, n: nat, p: Plans, q: Plans, id: Uuid)
    requires n < |changes| && Recorded(changes, n, p, id)
    requires id in q.virtual ==> id in p.virtual && q.virtual[id].deleted == p.virtual[id].deleted
    ensures Recorded(changes, n + 1, q, id)
  {
  }

  lemma SteppedRecords(key: Key, p: Plans, change: Change, facts: Facts, id: Uuid)
    ensures var q := Stepped(key, p, change, facts);
            && (id in q.virtual ==> id in p.virtual || change.obj == id)
            && (id in q.virtual && (change.obj != id || change.otype == Folder) ==>
                  id in p.virtual && q.virtual[id].deleted == p.virtual[id].deleted)
            && (id in q.virtual && id !in p.virtual ==> q.virtual[id].deleted == (change.kind == Delete))
            && (id in q.virtual && change.obj == id && change.otype == Note ==>
                  (Target(p.objects, change.parent, change.name) == None && id in p.virtual && q == p)
                  || q.virtual[id].deleted == (change.kind == Delete))
  {
    hide Target, FolderObjects, Vacated, IsNote;
  }

  lemma {:induction false} CourseRecorded(key: Key, objects: Objects, changes: seq<Change>, facts: seq<Facts>, n: nat,
                                          id: Uuid)
    requires n <= |changes| == |facts|
    ensures Recorded(changes, n, Course(key, objects, changes, facts, n), id)
  {
    if n > 0 {
      var p, q := Course(key, objects, changes, facts, n - 1), Course(key, objects, changes, facts, n);
      CourseRecorded(key, objects, changes, facts, n - 1, id);
      CourseNext(key, objects, changes, facts, n - 1);
      hide Course, Stepped, Target, Recorded;
      SteppedRecords(key, p, changes[n - 1], facts[n - 1], id);
      if id in q.virtual && changes[n - 1].obj == id && q.virtual[id].deleted == (changes[n - 1].kind == Delete) {
        RecordedNow(changes, n, q, id);
      } else {
        RecordedLater(changes, n - 1, p, q, id);
      }
    }
  }

  lemma RecordedNow(changes: seq<Change>, n: nat, q: Plans, id: Uuid)
    requires 0 < n <= |changes| && changes[n - 1].obj == id
    requires id in q.virtual && q.virtual[id].deleted == (changes[n - 1].kind == Delete)
    ensures Recorded(changes, n, q, id)
  {
  }

  // ---------------------------------------------------------------- whole plans

  /** The n-th change is one the server's tree can make after those before it. */
  ghost predicate ServerPlan(key: Key, tree: Tree, changes: seq<Change>) {
    forall i :: 0 <= i < |changes| ==> ServerStep(key, TreeRun(tree, changes, i), changes[i])
  }

  /** The server never uses an id again. */
  predicate IdsUsedOnce(changes: seq<Change>) {
    forall i, j :: 0 <= i < j < |changes| && changes[j].kind == Create ==> changes[i].obj != changes[j].obj
  }

  lemma TreeStepAt(tree: Tree, change: Change, id: Uuid)
    ensures id in TreeStep(tree, change) <==> if change.obj == id then change.kind != Delete else id in tree
  {
  }

  lemma ServerAt(key: Key, tree: Tree, changes: seq<Change>, i: nat)
    requires ServerPlan(key, tree, changes) && i < |changes|
    ensures ServerStep(key, TreeRun(tree, changes, i), changes[i])
    ensures changes[i].kind != Create ==> changes[i].obj in TreeRun(tree, changes, i)
    ensures changes[i].kind == Create ==> changes[i].obj !in TreeRun(tree, changes, i)
  {
    hide NameFree, TreeRun;
  }

  lemma TreeRunNext(tree: Tree, changes: seq<Change>, n: nat, id: Uuid)
    requires n < |changes|
    ensures id in TreeRun(tree, changes, n + 1)
            <==> if changes[n].obj == id then changes[n].kind != Delete else id in TreeRun(tree, changes, n)
  {
    TreeStepAt(TreeRun(tree, changes, n), changes[n], id);
    hide TreeStep;
  }

  lemma UsedOnceAt(changes: seq<Change>, i: nat, j: nat)
    requires IdsUsedOnce(changes) && i < j < |changes| && changes[i].obj == changes[j].obj
    ensures changes[j].kind != Create
  {
  }

  /** What was deleted stays away. */
  lemma {:induction false} StaysAway(key: Key, tree: Tree, changes: seq<Change>, j: nat, n: nat)
    requires ServerPlan(key, tree, changes) && IdsUsedOnce(changes) && j < n <= |changes| && changes[j].kind == Delete
    ensures changes[j].obj !in TreeRun(tree, changes, n)
  {
    hide *;
    TreeRunNext(tree, changes, n - 1, changes[j].obj);
    if n - 1 > j {
      StaysAway(key, tree, changes, j, n - 1);
      ServerAt(key, tree, changes, n - 1);
      if changes[n - 1].obj == changes[j].obj {
        UsedOnceAt(changes, j, n - 1);
      }
    }
  }

  /** What is there stays until something names it. */
  lemma {:induction false} StaysThere(tree: Tree, changes: seq<Change>, n: nat, id: Uuid)
    requires n <= |changes| && id in tree && forall j :: 0 <= j < n ==> changes[j].obj != id
    ensures id in TreeRun(tree, changes, n)
  {
    if n > 0 {
      StaysThere(tree, changes, n - 1, id);
      TreeStepAt(TreeRun(tree, changes, n - 1), changes[n - 1], id);
    }
  }

  lemma ServerIsFresh(key: Key, objects: Objects, changes: seq<Change>)
    requires ServerPlan(key, TreeOf(objects), changes) && IdsUsedOnce(changes)
    ensures FreshPlan(objects, changes)
  {
    forall i | 0 <= i < |changes| && changes[i].kind == Create
      ensures changes[i].obj !in objects
    {
      ServerAt(key, TreeOf(objects), changes, i);
      EntryAt(objects, changes[i].obj);
      if changes[i].obj in objects {
        StaysThere(TreeOf(objects), changes, i, changes[i].obj);
      }
    }
    hide ServerPlan;
  }

  lemma RecordsAllowed(key: Key, objects: Objects, changes: seq<Change>, facts: seq<Facts>, n: nat, p: Plans)
    requires n < |changes| == |facts| && ServerPlan(key, TreeOf(objects), changes) && IdsUsedOnce(changes)
    requires Alike(p, Course(key, objects, changes, facts, n))
    ensures RecordsAllow(p, changes[n])
  {
    var id := changes[n].obj;
    CourseRecorded(key, objects, changes, facts, n, id);
    hide ServerPlan, Course, TreeOf;
    if id in p.virtual {
      var j :| 0 <= j < n && changes[j].obj == id && (p.virtual[id].deleted ==> changes[j].kind == Delete);
      if p.virtual[id].deleted {
        StaysAway(key, TreeOf(objects), changes, j, n);
        ServerAt(key, TreeOf(objects), changes, n);
      }
    }
  }

  lemma NotRefused(key: Key, objects: Objects, changes: seq<Change>, facts: seq<Facts>, n: nat, p: Plans)
    requires n < |changes| == |facts| && ServerPlan(key, TreeOf(objects), changes) && IdsUsedOnce(changes)
    requires ValidIds(changes[n]) && facts[n].ok && !facts[n].intent
    ensures !RefusedAt(key, objects, changes, facts, n, p)
  {
    if RefusedAt(key, objects, changes, facts, n, p) {
      assert Sound(key, p) && TreeOf(p.objects) == TreeRun(TreeOf(objects), changes, n);
      assert Alike(p, Course(key, objects, changes, facts, n));
      hide Sound, Course, TreeOf, TreeRun, FolderAllowed, NoteAllowed, ServerPlan, ServerStep;
      ServerAt(key, TreeOf(objects), changes, n);
      if changes[n].otype == Folder {
        FolderStepAllowed(key, p, changes[n], facts[n]);
      } else {
        RecordsAllowed(key, objects, changes, facts, n, p);
        NoteStepAllowed(key, p, changes[n], facts[n]);
      }
    }
  }

  /** Whatever the server's tree can do, step by step, the preflight accepts, over a well-formed index whose portable
      paths are apart, if the disk agrees and nothing of it echoes an operation of this client. */
  method AcceptServerPlan(key: Key, objects: Objects, changes: seq<Change>, facts: seq<Facts>)
    returns (ok: bool, p: Plans)
    requires |facts| == |changes| && forall i :: 0 <= i < |changes| ==> ValidIds(changes[i])
    requires forall i :: 0 <= i < |changes| ==> facts[i].ok && !facts[i].intent
    requires Consistent(objects) && Apart(key, objects) && ServerPlan(key, TreeOf(objects), changes)
    requires IdsUsedOnce(changes)
    ensures ok && PlanHolds(key, objects, changes, |changes|, p) && Apart(key, p.objects)
  {
    hide Consistent, Apart, ServerPlan, FreshPlan, PlanHolds, AllAllowed, Course, Alike, TreeOf, RefusedAt, ValidIds;
    ServerIsFresh(key, objects, changes);
    ok, p := PreflightNotePlan(key, objects, changes, facts);
    if !ok {
      ghost var n :| 0 <= n < |changes| && RefusedAt(key, objects, changes, facts, n, p);
      NotRefused(key, objects, changes, facts, n, p);
    }
  }
}
