/** Running a whole remote plan over the virtual tables. */
module PreflightPlan {
  import opened Ids
  import opened Naming
  import opened Optional
  import opened Outbox
  import opened Inbox
  import opened Preflight

  /** The state an earlier step of the plan left a note in. */
  datatype Virtual = Virtual(relative: Path, deleted: bool)

  datatype Plans = Plans(objects: Objects, owners: Owners, virtual: map<Uuid, Virtual>)

  /** What the step's checks against disk, blobs and identities said, and whether it echoes an own accepted folder
      operation. */
  datatype Facts = Facts(ok: bool, intent: bool)

  ghost predicate VirtualOk(p: Plans) {
    forall id :: id in p.virtual && !p.virtual[id].deleted ==>
      id in p.objects && !p.objects[id].isFolder && p.objects[id].path == p.virtual[id].relative
  }

  ghost predicate Sound(key: Key, p: Plans) {
    Consistent(p.objects) && Exact(key, p.objects, p.owners) && VirtualOk(p)
  }

  /** No other object has the portable path. */
  ghost predicate Free(key: Key, objects: Objects, path: Path, id: Uuid) {
    forall z :: z in objects && PathKey(key, objects[z].path) == PathKey(key, path) ==> z == id
  }

  predicate IsNote(objects: Objects, id: Uuid) {
    id in objects && !objects[id].isFolder
  }

  predicate IsFolder(objects: Objects, id: Uuid) {
    id in objects && objects[id].isFolder
  }

  /** Whether a note step fits the virtual state. */
  ghost predicate NoteAllowed(key: Key, p: Plans, change: Change, facts: Facts) {
    var target, id := Target(p.objects, change.parent, change.name), change.obj;
    && facts.ok && target.Some?
    && (id in p.virtual ==> !p.virtual[id].deleted && change.kind != Create)
    && (match change.kind
        case Create => id in p.objects ==> IsNote(p.objects, id) && p.objects[id].path == target.value
        case Update => IsNote(p.objects, id) && p.objects[id].path == target.value
        case Move => IsNote(p.objects, id)
        case Delete => id in p.objects ==> IsNote(p.objects, id) && p.objects[id].path == target.value)
    && (change.kind != Delete ==> Free(key, p.objects, target.value, id))
  }

  ghost predicate FolderAllowed(key: Key, p: Plans, change: Change, facts: Facts) {
    var target, id := Target(p.objects, change.parent, change.name), change.obj;
    && facts.ok && target.Some? && change.kind != Update && Free(key, p.objects, target.value, id)
    && (change.kind == Move ==>
          && IsFolder(p.objects, id)
          && (p.objects[id].path == target.value || (!facts.intent && !(p.objects[id].path <= target.value))))
    && (change.kind == Delete ==>
          if facts.intent then id !in p.objects
          else
            && IsFolder(p.objects, id) && p.objects[id].path == target.value
            && forall z :: z in p.objects && z != id ==> !(p.objects[id].path <= p.objects[z].path))
  }

  ghost predicate Allowed(key: Key, p: Plans, change: Change, facts: Facts) {
    if change.otype == Folder then FolderAllowed(key, p, change, facts) else NoteAllowed(key, p, change, facts)
  }

  /** A created folder is new to the index. */
  predicate FreshCreate(objects: Objects, change: Change) {
    change.otype == Folder && change.kind == Create ==> change.obj !in objects
  }

  predicate ValidIds(change: Change) {
    change.obj != NIL && (change.parent.Some? ==> change.parent.value != NIL)
  }

  // ---------------------------------------------------------------- single objects

  lemma FreeByOwner(key: Key, objects: Objects, owners: Owners, path: Path, id: Uuid)
    requires Exact(key, objects, owners)
    ensures Free(key, objects, path, id) <==> (PathKey(key, path) in owners ==> owners[PathKey(key, path)] == id)
  {
    hide PathKey;
  }

  lemma PutExact(key: Key, objects: Objects, owners: Owners, id: Uuid, o: Obj)
    requires ExactBut(key, objects, owners, {id}) && (PathKey(key, o.path) !in owners)
    ensures Exact(key, objects[id := o], owners[PathKey(key, o.path) := id])
  {
    hide PathKey;
  }

  /** Taking an object out of the table. */
  lemma DropExact(key: Key, objects: Objects, owners: Owners, id: Uuid)
    requires Exact(key, objects, owners)
    ensures id in objects ==> ExactBut(key, objects, owners - {PathKey(key, objects[id].path)}, {id})
    ensures id !in objects ==> ExactBut(key, objects, owners, {id})
    ensures id in objects ==> Exact(key, objects - {id}, owners - {PathKey(key, objects[id].path)})
  {
    hide PathKey;
  }

  /** Putting an object on a path that is free or its own. */
  lemma ReplaceExact(key: Key, objects: Objects, owners: Owners, id: Uuid, o: Obj)
    requires Exact(key, objects, owners) && Free(key, objects, o.path, id)
    requires id in objects ==> PathKey(key, objects[id].path) == PathKey(key, o.path)
    ensures Exact(key, objects[id := o], owners[PathKey(key, o.path) := id])
  {
    hide PathKey;
  }

  lemma PutConsistent(objects: Objects, id: Uuid, o: Obj)
    requires Consistent(objects) && id != NIL && Placed(objects[id := o], id)
    requires id in objects ==>
               (o.path == objects[id].path && o.isFolder == objects[id].isFolder) || !objects[id].isFolder
    ensures Consistent(objects[id := o])
  {
    var after := objects[id := o];
    forall x | x in after
      ensures Placed(after, x)
    {
      if x != id {
        assert Placed(objects, x);
      }
    }
  }

  lemma DropConsistent(objects: Objects, id: Uuid)
    requires Consistent(objects) && forall z :: z in objects ==> objects[z].parent != id
    ensures Consistent(objects - {id})
  {
    var after := objects - {id};
    forall x | x in after
      ensures Placed(after, x)
    {
      assert Placed(objects, x);
    }
  }

  lemma TargetPlaced(objects: Objects, change: Change, o: Obj)
    requires Consistent(objects) && Target(objects, change.parent, change.name).Some? && ValidIds(change)
    requires o.path == Target(objects, change.parent, change.name).value && o.parent == ParentId(change.parent)
    requires change.parent.Some? ==> change.parent.value != change.obj
    ensures Placed(objects[change.obj := o], change.obj)
  {
    if change.parent.Some? {
      assert o.path[..|o.path| - 1] == objects[change.parent.value].path;
    }
  }

  /** A path ends in one object, so equal targets have equal parents. */
  lemma SameTargetSameParent(key: Key, objects: Objects, change: Change)
    requires Consistent(objects) && Apart(key, objects) && Target(objects, change.parent, change.name).Some?
             && ValidIds(change)
    requires change.obj in objects && objects[change.obj].path == Target(objects, change.parent, change.name).value
    ensures objects[change.obj].parent == ParentId(change.parent)
    ensures EntryOf(objects[change.obj]) == Entry(objects[change.obj].isFolder, ParentId(change.parent), change.name)
  {
    var o := objects[change.obj];
    assert Placed(objects, change.obj);
    if change.parent.Some? {
      var p := change.parent.value;
      assert Placed(objects, p);
      assert o.path[..|o.path| - 1] == objects[p].path;
      assert o.parent in objects && objects[o.parent].path == objects[p].path;
      ApartAt(key, objects, o.parent, p);
    }
  }

  // ---------------------------------------------------------------- note steps

  /** The path a note is on before its step. */
  function OldPath(p: Plans, id: Uuid): Option<Path> {
    if id in p.virtual then Some(p.virtual[id].relative)
    else if id in p.objects then Some(p.objects[id].path)
    else None
  }

  function Vacated(key: Key, p: Plans, change: Change): Owners {
    if (change.kind == Move || change.kind == Delete) && OldPath(p, change.obj).Some?
    then p.owners - {PathKey(key, OldPath(p, change.obj).value)} else p.owners
  }

  function NoteNext(key: Key, p: Plans, change: Change): Plans
    requires Target(p.objects, change.parent, change.name).Some?
  {
    var target, id := Target(p.objects, change.parent, change.name).value, change.obj;
    var vacated := Vacated(key, p, change);
    Plans(
      if change.kind == Delete then p.objects - {id} else p.objects[id := Obj(false, target, ParentId(change.parent))],
      if change.kind == Delete then vacated else vacated[PathKey(key, target) := id],
      p.virtual[id := Virtual(target, change.kind == Delete)])
  }

  /** The path a live note is on is the one the tables say. */
  lemma OldPathIs(p: Plans, id: Uuid)
    requires VirtualOk(p) && (id in p.virtual ==> !p.virtual[id].deleted)
    ensures OldPath(p, id) == if id in p.objects then Some(p.objects[id].path) else None
  {
  }

  lemma VacatedOwner(key: Key, p: Plans, change: Change, path: Path)
    requires Sound(key, p) && (change.obj in p.virtual ==> !p.virtual[change.obj].deleted)
    ensures Free(key, p.objects, path, change.obj) <==>
            (PathKey(key, path) in Vacated(key, p, change) ==>
               Vacated(key, p, change)[PathKey(key, path)] == change.obj)
  {
    var id := change.obj;
    hide *;
    VacatedIs(key, p, change);
    FreeByOwner(key, p.objects, p.owners, path, id);
    if id in p.objects {
      OwnKey(key, p.objects, p.owners, id);
    }
  }

  lemma VacatedIs(key: Key, p: Plans, change: Change)
    requires Sound(key, p) && (change.obj in p.virtual ==> !p.virtual[change.obj].deleted)
    ensures Exact(key, p.objects, p.owners)
    ensures Vacated(key, p, change) ==
            if (change.kind == Move || change.kind == Delete) && change.obj in p.objects
            then p.owners - {PathKey(key, p.objects[change.obj].path)} else p.owners
  {
    OldPathIs(p, change.obj);
    hide PathKey, Exact, Consistent, VirtualOk, OldPath;
  }

  lemma OwnKey(key: Key, objects: Objects, owners: Owners, id: Uuid)
    requires Exact(key, objects, owners) && id in objects
    ensures PathKey(key, objects[id].path) in owners && owners[PathKey(key, objects[id].path)] == id
  {
  }

  lemma NoteDeletedExact(key: Key, p: Plans, change: Change)
    requires Sound(key, p) && (change.obj in p.virtual ==> !p.virtual[change.obj].deleted) && change.kind == Delete
    ensures Exact(key, p.objects - {change.obj}, Vacated(key, p, change))
  {
    VacatedIs(key, p, change);
    hide PathKey, Exact, Sound, Vacated;
    DropExact(key, p.objects, p.owners, change.obj);
    if change.obj !in p.objects {
      assert p.objects - {change.obj} == p.objects;
    }
  }

  lemma NoteMovedExact(key: Key, p: Plans, change: Change, target: Path, o: Obj)
    requires Sound(key, p) && (change.obj in p.virtual ==> !p.virtual[change.obj].deleted) && change.kind == Move
    requires change.obj in p.objects && Free(key, p.objects, target, change.obj) && o.path == target
    ensures Exact(key, p.objects[change.obj := o], Vacated(key, p, change)[PathKey(key, target) := change.obj])
  {
    hide *;
    VacatedIs(key, p, change);
    DropExact(key, p.objects, p.owners, change.obj);
    MovedKeyFree(key, p, change, target);
    PutExact(key, p.objects, Vacated(key, p, change), change.obj, o);
  }

  lemma NoteExact(key: Key, p: Plans, change: Change, facts: Facts)
    requires Sound(key, p) && NoteAllowed(key, p, change, facts)
    ensures Exact(key, NoteNext(key, p, change).objects, NoteNext(key, p, change).owners)
  {
    var target, id := Target(p.objects, change.parent, change.name).value, change.obj;
    var o := Obj(false, target, ParentId(change.parent));
    VacatedIs(key, p, change);
    hide PathKey, Exact, Sound, Vacated, Target, Free;
    match change.kind {
      case Delete => NoteDeletedExact(key, p, change);
      case Move => NoteMovedExact(key, p, change, target, o);
      case _ => ReplaceExact(key, p.objects, p.owners, id, o);
    }
  }

  lemma MovedKeyFree(key: Key, p: Plans, change: Change, target: Path)
    requires Sound(key, p) && Free(key, p.objects, target, change.obj) && change.kind == Move && change.obj in p.objects
    requires change.obj in p.virtual ==> !p.virtual[change.obj].deleted
    ensures PathKey(key, target) !in Vacated(key, p, change)
  {
    OldPathIs(p, change.obj);
    hide PathKey, Consistent, VirtualOk, OldPath;
  }

  lemma NoteHasTarget(key: Key, p: Plans, change: Change, facts: Facts)
    requires NoteAllowed(key, p, change, facts)
    ensures Target(p.objects, change.parent, change.name).Some?
  {
    hide Free, Target;
  }

  lemma NoteObjects(key: Key, p: Plans, change: Change)
    requires Target(p.objects, change.parent, change.name).Some?
    ensures NoteNext(key, p, change).objects ==
            if change.kind == Delete then p.objects - {change.obj}
            else p.objects[change.obj :=
                           Obj(false, Target(p.objects, change.parent, change.name).value, ParentId(change.parent))]
  {
    hide Target, Vacated;
  }

  lemma NoteDropConsistent(key: Key, p: Plans, change: Change, facts: Facts)
    requires Sound(key, p) && NoteAllowed(key, p, change, facts) && ValidIds(change) && change.kind == Delete
    ensures Consistent(p.objects - {change.obj})
  {
    hide Exact, VirtualOk, Free, PathKey, Target, Consistent;
    NoteHasNoChildren(p.objects, change.obj);
    DropConsistent(p.objects, change.obj);
  }

  lemma NotePutConsistent(key: Key, p: Plans, change: Change, facts: Facts)
    requires Sound(key, p) && NoteAllowed(key, p, change, facts) && ValidIds(change) && change.kind != Delete
    ensures Consistent(p.objects[change.obj :=
                                 Obj(false, Target(p.objects, change.parent, change.name).value,
                                     ParentId(change.parent))])
  {
    var o := Obj(false, Target(p.objects, change.parent, change.name).value, ParentId(change.parent));
    hide Exact, VirtualOk, Free, PathKey, Consistent, Placed, Target;
    TargetPlaced(p.objects, change, o);
    PutConsistent(p.objects, change.obj, o);
  }

  lemma NoteConsistent(key: Key, p: Plans, change: Change, facts: Facts)
    requires Sound(key, p) && NoteAllowed(key, p, change, facts) && ValidIds(change)
    ensures Consistent(NoteNext(key, p, change).objects)
  {
    hide *;
    NoteHasTarget(key, p, change, facts);
    NoteObjects(key, p, change);
    if change.kind == Delete {
      NoteDropConsistent(key, p, change, facts);
    } else {
      NotePutConsistent(key, p, change, facts);
    }
  }

  lemma NoteHasNoChildren(objects: Objects, id: Uuid)
    requires Consistent(objects) && (id in objects ==> !objects[id].isFolder) && id != NIL
    ensures forall z :: z in objects ==> objects[z].parent != id
  {
    forall z | z in objects
      ensures objects[z].parent != id
    {
      assert Placed(objects, z);
    }
  }

  lemma NoteVirtual(key: Key, p: Plans, change: Change, facts: Facts)
    requires VirtualOk(p) && NoteAllowed(key, p, change, facts)
    ensures VirtualOk(NoteNext(key, p, change))
  {
    hide Free, Vacated;
  }

  // ---------------------------------------------------------------- the server's view

  /** The same change on the server's tree: one entry put or taken out. */
  function TreeStep(tree: map<Uuid, Entry>, change: Change): map<Uuid, Entry> {
    if change.kind == Delete then tree - {change.obj}
    else tree[change.obj := Entry(change.otype == Folder, ParentId(change.parent), change.name)]
  }

  lemma TreePut(objects: Objects, id: Uuid, o: Obj)
    ensures TreeOf(objects[id := o]) == TreeOf(objects)[id := EntryOf(o)]
            && TreeOf(objects - {id}) == TreeOf(objects) - {id}
  {
  }

  lemma TargetEntry(objects: Objects, parent: Option<Uuid>, name: string, isFolder: bool)
    requires Target(objects, parent, name).Some?
    ensures EntryOf(Obj(isFolder, Target(objects, parent, name).value, ParentId(parent)))
            == Entry(isFolder, ParentId(parent), name)
  {
  }

  lemma NoteTree(key: Key, p: Plans, change: Change, facts: Facts)
    requires NoteAllowed(key, p, change, facts) && change.otype == Note
    ensures TreeOf(NoteNext(key, p, change).objects) == TreeStep(TreeOf(p.objects), change)
  {
    var target := Target(p.objects, change.parent, change.name).value;
    TargetEntry(p.objects, change.parent, change.name, false);
    TreePut(p.objects, change.obj, Obj(false, target, ParentId(change.parent)));
    hide TreeOf, EntryOf, NoteAllowed, Vacated, Target;
  }

  lemma NoteSound(key: Key, p: Plans, change: Change, facts: Facts)
    requires Sound(key, p) && NoteAllowed(key, p, change, facts) && ValidIds(change) && change.otype == Note
    ensures Target(p.objects, change.parent, change.name).Some?
    ensures Sound(key, NoteNext(key, p, change))
            && TreeOf(NoteNext(key, p, change).objects) == TreeStep(TreeOf(p.objects), change)
  {
    assert Target(p.objects, change.parent, change.name).Some? && VirtualOk(p);
    hide *;
    NoteExact(key, p, change, facts);
    NoteConsistent(key, p, change, facts);
    NoteVirtual(key, p, change, facts);
    NoteTree(key, p, change, facts);
    CloseSound(key, NoteNext(key, p, change));
  }

  lemma CloseSound(key: Key, p: Plans)
    requires Consistent(p.objects) && Exact(key, p.objects, p.owners) && VirtualOk(p)
    ensures Sound(key, p)
  {
  }

  /** The checks and table updates of one note step. */
  method PreflightNote(key: Key, p: Plans, change: Change, facts: Facts) returns (ok: bool, q: Plans)
    ensures ok ==> Target(p.objects, change.parent, change.name).Some? && q == NoteNext(key, p, change)
    ensures Sound(key, p) ==> ok == NoteAllowed(key, p, change, facts)
  {
    q := p;
    var target, id := Target(p.objects, change.parent, change.name), change.obj;
    hide Target, PathKey, Free, Vacated, Sound;
    if target == None || !facts.ok {
      return false, q;
    }
    if id in p.virtual {
      SoundVirtual(key, p, id);
      var prior := p.virtual[id];
      if prior.deleted || change.kind == Create
          || ((change.kind == Update || change.kind == Delete) && target.value != prior.relative) {
        return false, q;
      }
    } else {
      match change.kind {
        case Create =>
          if id in p.objects && (p.objects[id].isFolder || p.objects[id].path != target.value) { return false, q; }
        case Update =>
          if id !in p.objects || p.objects[id].isFolder || p.objects[id].path != target.value { return false, q; }
        case Move =>
          if id !in p.objects || p.objects[id].isFolder { return false, q; }
        case Delete =>
          if id in p.objects && (p.objects[id].isFolder || p.objects[id].path != target.value) { return false, q; }
      }
    }
    if Sound(key, p) {
      VacatedOwner(key, p, change, target.value);
    }
    var owners := Vacated(key, p, change);
    var pathKey := PathKey(key, target.value);
    if change.kind != Delete && pathKey in owners && owners[pathKey] != id {
      return false, q;
    }
    q := NoteNext(key, p, change);
    ok := true;
  }

  lemma SoundVirtual(key: Key, p: Plans, id: Uuid)
    requires id in p.virtual
    ensures Sound(key, p) && !p.virtual[id].deleted ==>
              id in p.objects && !p.objects[id].isFolder && p.objects[id].path == p.virtual[id].relative
  {
  }

  // ---------------------------------------------------------------- moving a folder

  type KeyTable = map<Uuid, Path>

  /** The portable path of every object. */
  function KeysOf(key: Key, objects: Objects): KeyTable {
    map id | id in objects :: PathKey(key, objects[id].path)
  }

  /** `owners` is the inverse of an assignment of portable paths. */
  ghost predicate InverseOf(keys: KeyTable, owners: Owners) {
    && (forall k :: k in owners ==> owners[k] in keys && keys[owners[k]] == k)
    && (forall id :: id in keys ==> keys[id] in owners && owners[keys[id]] == id)
  }

  lemma ExactIsInverse(key: Key, objects: Objects, owners: Owners)
    ensures Exact(key, objects, owners) <==> InverseOf(KeysOf(key, objects), owners)
  {
    hide PathKey;
    var keys := KeysOf(key, objects);
    assert keys.Keys == objects.Keys && forall id :: id in keys ==> keys[id] == PathKey(key, objects[id].path);
    hide KeysOf;
    if InverseOf(keys, owners) {
      assert forall id :: id in objects ==>
               PathKey(key, objects[id].path) in owners && owners[PathKey(key, objects[id].path)] == id;
    }
  }

  /** Old and new portable paths never meet, except an object's own. */
  ghost predicate Separate(before: KeyTable, after: KeyTable) {
    && before.Keys == after.Keys
    && (forall a, b :: a in before && b in before && before[a] == before[b] ==> a == b)
    && (forall a, b :: a in after && b in after && after[a] == after[b] ==> a == b)
    && (forall a, b :: a in after && b in before && after[a] == before[b] ==> a == b)
  }

  /** The assignment in the middle of the move loop: the moved folder has no path until its turn. */
  function Midway(before: KeyTable, after: KeyTable, todo: set<Uuid>, moved: Uuid): KeyTable
    requires before.Keys == after.Keys
  {
    map id | id in before && !(id == moved && id in todo) :: if id in todo then before[id] else after[id]
  }

  lemma MoveOne(before: KeyTable, after: KeyTable, todo: set<Uuid>, moved: Uuid, owners: Owners, id: Uuid)
    requires Separate(before, after) && InverseOf(Midway(before, after, todo, moved), owners) && id in todo
             && id in before
    ensures InverseOf(Midway(before, after, todo - {id}, moved), (owners - {before[id]})[after[id] := id])
  {
    var now := Midway(before, after, todo, moved);
    assert Midway(before, after, todo - {id}, moved) == now[id := after[id]];
    assert forall x :: x in now && x != id ==> now[x] != after[id] && now[x] != before[id];
    assert id in now ==> now[id] == before[id];
    hide Midway, Separate;
    RekeyOne(now, owners, id, before[id], after[id]);
  }

  /** One member of an inverse table changes its key to one nobody has. */
  lemma RekeyOne(keys: KeyTable, owners: Owners, id: Uuid, was: Path, now: Path)
    requires InverseOf(keys, owners) && (id in keys ==> keys[id] == was)
    requires forall x :: x in keys && x != id ==> keys[x] != now && keys[x] != was
    ensures InverseOf(keys[id := now], (owners - {was})[now := id])
  {
  }

  lemma SkipOne(before: KeyTable, after: KeyTable, todo: set<Uuid>, moved: Uuid, id: Uuid)
    requires before.Keys == after.Keys && id in before && id != moved && after[id] == before[id]
    ensures Midway(before, after, todo - {id}, moved) == Midway(before, after, todo, moved)
  {
  }

  lemma StartMoving(key: Key, objects: Objects, owners: Owners, moved: Uuid)
    requires Exact(key, objects, owners) && moved in objects
    ensures var keys := KeysOf(key, objects);
            forall after: KeyTable :: after.Keys == keys.Keys ==>
              InverseOf(Midway(keys, after, objects.Keys, moved), owners - {PathKey(key, objects[moved].path)})
  {
    hide PathKey;
  }

  lemma RelocatedMeetsOld(key: Key, objects: Objects, moved: Uuid, parent: Option<Uuid>, name: string, a: Uuid, b: Uuid)
    requires Consistent(objects) && Apart(key, objects) && Movable(key, objects, moved, parent, name) && a in objects
             && b in objects
    requires PathKey(key, Relocated(objects, moved, objects[moved].path, Target(objects, parent, name).value,
                                    ParentId(parent))[a].path)
             == PathKey(key, objects[b].path)
    ensures a == b
  {
    var source, target := objects[moved].path, Target(objects, parent, name).value;
    hide *;
    RelocatedAt(objects, moved, source, target, ParentId(parent), a);
    NewPathIs(objects[a].path, source, target);
    if source <= objects[a].path {
      NewKeyFree(key, objects, moved, parent, name, a, b);
    } else {
      ApartAt(key, objects, a, b);
    }
  }

  lemma RelocatedMeetsRelocated(key: Key, objects: Objects, moved: Uuid, parent: Option<Uuid>, name: string, a: Uuid,
                                b: Uuid)
    requires Consistent(objects) && Apart(key, objects) && Movable(key, objects, moved, parent, name) && a in objects
             && b in objects
    requires var after := Relocated(objects, moved, objects[moved].path, Target(objects, parent, name).value,
                                    ParentId(parent));
             PathKey(key, after[a].path) == PathKey(key, after[b].path)
    ensures a == b
  {
    var source, target := objects[moved].path, Target(objects, parent, name).value;
    hide *;
    RelocatedAt(objects, moved, source, target, ParentId(parent), a);
    RelocatedAt(objects, moved, source, target, ParentId(parent), b);
    NewPathIs(objects[a].path, source, target);
    NewPathIs(objects[b].path, source, target);
    if !(source <= objects[a].path) {
      RelocatedMeetsOld(key, objects, moved, parent, name, b, a);
    } else if !(source <= objects[b].path) {
      RelocatedMeetsOld(key, objects, moved, parent, name, a, b);
    } else {
      NewKeysApart(key, objects, source, target, a, b);
    }
  }

  lemma NewPathIs(path: Path, source: Path, target: Path)
    ensures NewPath(path, source, target) == if source <= path then target + path[|source|..] else path
  {
  }

  lemma RelocatedSeparate(key: Key, objects: Objects, moved: Uuid, parent: Option<Uuid>, name: string)
    requires Consistent(objects) && Apart(key, objects) && Movable(key, objects, moved, parent, name)
    ensures var source, target := objects[moved].path, Target(objects, parent, name).value;
            Separate(KeysOf(key, objects), KeysOf(key, Relocated(objects, moved, source, target, ParentId(parent))))
  {
    var source, target := objects[moved].path, Target(objects, parent, name).value;
    var after := Relocated(objects, moved, source, target, ParentId(parent));
    assert after.Keys == objects.Keys;
    hide Consistent, Apart, Movable, PathKey, Relocated, Target, NewPath;
    forall a, b | a in objects && b in objects && PathKey(key, after[a].path) == PathKey(key, objects[b].path)
      ensures a == b
    {
      RelocatedMeetsOld(key, objects, moved, parent, name, a, b);
    }
    forall a, b | a in objects && b in objects && PathKey(key, after[a].path) == PathKey(key, after[b].path)
      ensures a == b
    {
      RelocatedMeetsRelocated(key, objects, moved, parent, name, a, b);
    }
    forall a, b | a in objects && b in objects && PathKey(key, objects[a].path) == PathKey(key, objects[b].path)
      ensures a == b
    {
      ApartAt(key, objects, a, b);
    }
  }

  /** What the move loop keeps. */
  ghost predicate MoveLoop(key: Key, objects: Objects, final: Objects, moved: Uuid, todo: set<Uuid>, after: Objects,
                           table: Owners) {
    && todo <= objects.Keys && after.Keys == objects.Keys == final.Keys
    && (forall id :: id in objects ==> after[id] == if id in todo then objects[id] else final[id])
    && (Separate(KeysOf(key, objects), KeysOf(key, final)) ==>
          InverseOf(Midway(KeysOf(key, objects), KeysOf(key, final), todo, moved), table))
  }

  lemma MoveLoopMoves(key: Key, objects: Objects, final: Objects, moved: Uuid, todo: set<Uuid>, after: Objects,
                      table: Owners, id: Uuid)
    requires MoveLoop(key, objects, final, moved, todo, after, table) && id in todo
    ensures id in objects && id in final
    ensures MoveLoop(key, objects, final, moved, todo - {id}, after[id := final[id]],
                     (table - {PathKey(key, objects[id].path)})[PathKey(key, final[id].path) := id])
  {
    hide PathKey, Separate, InverseOf, Midway;
    if Separate(KeysOf(key, objects), KeysOf(key, final)) {
      MoveOne(KeysOf(key, objects), KeysOf(key, final), todo, moved, table, id);
    }
  }

  lemma MoveLoopSkips(key: Key, objects: Objects, final: Objects, moved: Uuid, todo: set<Uuid>, after: Objects,
                      table: Owners, id: Uuid)
    requires MoveLoop(key, objects, final, moved, todo, after, table) && id in todo && id in objects && id in final
    requires id != moved && PathKey(key, final[id].path) == PathKey(key, objects[id].path) && final[id] == objects[id]
    ensures MoveLoop(key, objects, final, moved, todo - {id}, after, table)
  {
    hide PathKey, Separate, InverseOf, Midway;
    SkipOne(KeysOf(key, objects), KeysOf(key, final), todo, moved, id);
  }

  lemma MoveLoopStarts(key: Key, objects: Objects, owners: Owners, final: Objects, moved: Uuid)
    requires moved in objects && final.Keys == objects.Keys && Exact(key, objects, owners)
    ensures MoveLoop(key, objects, final, moved, objects.Keys, objects, owners - {PathKey(key, objects[moved].path)})
  {
    hide PathKey, Separate, InverseOf, Midway, Exact;
    StartMoving(key, objects, owners, moved);
  }

  lemma MoveLoopEnds(key: Key, objects: Objects, final: Objects, moved: Uuid, after: Objects, table: Owners)
    requires MoveLoop(key, objects, final, moved, {}, after, table)
    ensures after == final
    ensures Separate(KeysOf(key, objects), KeysOf(key, final)) ==> Exact(key, after, table)
  {
    hide PathKey, Separate, InverseOf, Midway, Exact;
    AllMoved(KeysOf(key, objects), KeysOf(key, final), moved);
    ExactIsInverse(key, final, table);
  }

  lemma AllMoved(before: KeyTable, after: KeyTable, moved: Uuid)
    ensures before.Keys == after.Keys ==> Midway(before, after, {}, moved) == after
  {
  }

  lemma RelocatedKeys(objects: Objects, moved: Uuid, source: Path, target: Path, parent: Uuid)
    ensures Relocated(objects, moved, source, target, parent).Keys == objects.Keys
  {
  }

  lemma Unmoved(objects: Objects, moved: Uuid, source: Path, target: Path, parent: Uuid, id: Uuid)
    requires moved in objects && source == objects[moved].path && id in objects
    ensures id in Relocated(objects, moved, source, target, parent)
    ensures !(source <= objects[id].path) ==>
              id != moved && Relocated(objects, moved, source, target, parent)[id] == objects[id]
    ensures source <= objects[id].path ==>
      Relocated(objects, moved, source, target, parent)[id]
        == Obj(objects[id].isFolder, target + objects[id].path[|source|..],
               if id == moved then parent else objects[id].parent)
  {
  }

  /** Rewrite the paths of the whole subtree and the table rows of its members, in no particular order. */
  method MoveSubtree(key: Key, objects: Objects, owners: Owners, moved: Uuid, source: Path, target: Path, parent: Uuid)
      returns (after: Objects, table: Owners)
    requires moved in objects && source == objects[moved].path
    ensures after == Relocated(objects, moved, source, target, parent)
    ensures Exact(key, objects, owners) && Separate(KeysOf(key, objects), KeysOf(key, after)) ==>
              Exact(key, after, table)
  {
    hide *;
    ghost var final := Relocated(objects, moved, source, target, parent);
    ghost var exact := Exact(key, objects, owners);
    RelocatedKeys(objects, moved, source, target, parent);
    after, table := objects, owners - {PathKey(key, source)};
    if exact {
      MoveLoopStarts(key, objects, owners, final, moved);
    }
    var todo := objects.Keys;
    while todo != {}
      invariant todo <= objects.Keys && after.Keys == objects.Keys == final.Keys
      invariant forall id :: id in objects ==> after[id] == if id in todo then objects[id] else final[id]
      invariant exact ==> MoveLoop(key, objects, final, moved, todo, after, table)
      decreases |todo|
    {
      var id :| id in todo;
      var child := after[id];
      Unmoved(objects, moved, source, target, parent, id);
      if source <= child.path {
        if exact {
          MoveLoopMoves(key, objects, final, moved, todo, after, table, id);
        }
        table := table - {PathKey(key, child.path)};
        child := Obj(child.isFolder, target + child.path[|source|..], if id == moved then parent else child.parent);
        after := after[id := child];
        table := table[PathKey(key, child.path) := id];
      } else if exact {
        MoveLoopSkips(key, objects, final, moved, todo, after, table, id);
      }
      todo := todo - {id};
    }
    assert after == final;
    if exact {
      MoveLoopEnds(key, objects, final, moved, after, table);
    }
  }

  // ---------------------------------------------------------------- folder steps

  /** Every note's own step record follows its new path. */
  function Refreshed(virtual: map<Uuid, Virtual>, objects: Objects): map<Uuid, Virtual> {
    map id | id in virtual :: if IsNote(objects, id) then virtual[id].(relative := objects[id].path) else virtual[id]
  }

  /** The objects a folder step leaves. */
  function FolderObjects(objects: Objects, change: Change, facts: Facts): Objects
    requires Target(objects, change.parent, change.name).Some?
  {
    var target, id := Target(objects, change.parent, change.name).value, change.obj;
    match change.kind
    case Create => objects[id := Obj(true, target, ParentId(change.parent))]
    case Move =>
      if id !in objects || objects[id].path == target then objects
      else Relocated(objects, id, objects[id].path, target, ParentId(change.parent))
    case Delete => if facts.intent then objects else objects - {id}
    case Update => objects
  }

  /** The folder the step creates is new to the objects, or stays on its portable path. */
  predicate KeepsPath(key: Key, objects: Objects, change: Change)
    requires Target(objects, change.parent, change.name).Some?
  {
    change.kind == Create && change.obj in objects ==>
      PathKey(key, objects[change.obj].path) == PathKey(key, Target(objects, change.parent, change.name).value)
  }

  /** A folder create keeps the owner table an exact inverse if and only if the folder is new or keeps its portable
      path. */
  lemma CreateKeepsTableIff(key: Key, objects: Objects, owners: Owners, id: Uuid, o: Obj)
    requires Exact(key, objects, owners) && Free(key, objects, o.path, id)
    ensures Exact(key, objects[id := o], owners[PathKey(key, o.path) := id])
            <==> (id !in objects || PathKey(key, objects[id].path) == PathKey(key, o.path))
  {
    hide PathKey;
    if id in objects && PathKey(key, objects[id].path) != PathKey(key, o.path) {
      var stale := PathKey(key, objects[id].path);
      assert owners[PathKey(key, o.path) := id][stale] == id;
    } else {
      ReplaceExact(key, objects, owners, id, o);
    }
  }

  /** The checks and table updates of one folder step. */
  method PreflightFolder(key: Key, p: Plans, change: Change, facts: Facts) returns (ok: bool, q: Plans)
    ensures ok ==> Target(p.objects, change.parent, change.name).Some?
                   && q.objects == FolderObjects(p.objects, change, facts)
    ensures ok ==> q.virtual == if change.kind == Move then Refreshed(p.virtual, q.objects) else p.virtual
    ensures Sound(key, p) ==> ok == FolderAllowed(key, p, change, facts)
    ensures Sound(key, p) && ok ==> (Exact(key, q.objects, q.owners) <==> KeepsPath(key, p.objects, change))
  {
    q := p;
    var target, id := Target(p.objects, change.parent, change.name), change.obj;
    hide Target, PathKey, Free, Consistent, VirtualOk, Exact;
    if target == None || !facts.ok || change.kind == Update {
      return false, q;
    }
    var pathKey := PathKey(key, target.value);
    if Sound(key, p) {
      FreeByOwner(key, p.objects, p.owners, target.value, id);
    }
    if pathKey in p.owners && p.owners[pathKey] != id {
      return false, q;
    }
    match change.kind {
      case Create =>
        q := p.(objects := p.objects[id := Obj(true, target.value, ParentId(change.parent))],
                owners := p.owners[pathKey := id]);
        if Sound(key, p) {
          CreateKeepsTableIff(key, p.objects, p.owners, id, Obj(true, target.value, ParentId(change.parent)));
        }
        return true, q;
      case Move =>
        ok, q := PreflightFolderMove(key, p, change, facts, target.value);
      case Delete =>
        ok, q := PreflightFolderDelete(key, p, change, facts, target.value);
    }
  }

  method PreflightFolderMove(key: Key, p: Plans, change: Change, facts: Facts, target: Path)
    returns (ok: bool, q: Plans)
    requires Target(p.objects, change.parent, change.name) == Some(target) && change.kind == Move
    ensures ok ==> q.objects == FolderObjects(p.objects, change, facts) && q.virtual == Refreshed(p.virtual, q.objects)
    ensures Sound(key, p) && facts.ok && Free(key, p.objects, target, change.obj) ==>
              ok == FolderAllowed(key, p, change, facts) && (ok ==> Exact(key, q.objects, q.owners))
  {
    var id := change.obj;
    q := p;
    if facts.ok && Free(key, p.objects, target, id) {
      MoveVerdict(key, p, change, facts, target);
    }
    hide FolderAllowed, Free, Exact, Sound, PathKey, Target, Refreshed;
    if id !in p.objects || !p.objects[id].isFolder || (facts.intent && p.objects[id].path != target) {
      return false, q;
    }
    var source := p.objects[id].path;
    if source == target {
      q := p.(virtual := Refreshed(p.virtual, p.objects));
      return true, q;
    }
    if source <= target {
      return false, q;
    }
    var objects, owners := MoveSubtree(key, p.objects, p.owners, id, source, target, ParentId(change.parent));
    q := Plans(objects, owners, Refreshed(p.virtual, objects));
    hide Relocated, Separate, KeysOf;
    if Sound(key, p) && Free(key, p.objects, target, id) {
      MovedExact(key, p, change, target, q.objects, q.owners);
    }
    ok := true;
  }

  lemma MoveVerdict(key: Key, p: Plans, change: Change, facts: Facts, target: Path)
    requires Target(p.objects, change.parent, change.name) == Some(target) && change.kind == Move && facts.ok
    requires Free(key, p.objects, target, change.obj)
    ensures FolderAllowed(key, p, change, facts) <==>
            IsFolder(p.objects, change.obj) &&
            (p.objects[change.obj].path == target || (!facts.intent && !(p.objects[change.obj].path <= target)))
  {
  }

  lemma MovedExact(key: Key, p: Plans, change: Change, target: Path, objects: Objects, owners: Owners)
    requires Sound(key, p) && Free(key, p.objects, target, change.obj)
             && Target(p.objects, change.parent, change.name) == Some(target)
    requires IsFolder(p.objects, change.obj) && !(p.objects[change.obj].path <= target)
    requires objects == Relocated(p.objects, change.obj, p.objects[change.obj].path, target, ParentId(change.parent))
    requires Exact(key, p.objects, p.owners) && Separate(KeysOf(key, p.objects), KeysOf(key, objects)) ==>
               Exact(key, objects, owners)
    ensures Exact(key, objects, owners)
  {
    MovableNow(key, p.objects, change, target);
    hide Exact, VirtualOk, Consistent, Free, Separate, Movable, Apart, Relocated, KeysOf, Target;
    ExactIsApart(key, p.objects, p.owners);
    RelocatedSeparate(key, p.objects, change.obj, change.parent, change.name);
  }

  lemma MovableNow(key: Key, objects: Objects, change: Change, target: Path)
    requires Target(objects, change.parent, change.name) == Some(target) && IsFolder(objects, change.obj)
    requires Free(key, objects, target, change.obj) && !(objects[change.obj].path <= target)
    ensures Movable(key, objects, change.obj, change.parent, change.name)
  {
  }

  lemma FolderDeleteFits(key: Key, p: Plans, change: Change, facts: Facts, target: Path)
    requires Target(p.objects, change.parent, change.name) == Some(target) && change.kind == Delete
    requires facts.ok && Free(key, p.objects, target, change.obj)
    ensures facts.intent ==> (FolderAllowed(key, p, change, facts) <==> change.obj !in p.objects)
    ensures !facts.intent ==>
              (FolderAllowed(key, p, change, facts) <==>
                && IsFolder(p.objects, change.obj) && p.objects[change.obj].path == target
                && forall z :: z in p.objects && z != change.obj ==> !(target <= p.objects[z].path))
  {
    hide PathKey, Target, Free;
  }

  method PreflightFolderDelete(key: Key, p: Plans, change: Change, facts: Facts, target: Path)
    returns (ok: bool, q: Plans)
    requires Target(p.objects, change.parent, change.name) == Some(target) && change.kind == Delete
    ensures ok ==> q.objects == FolderObjects(p.objects, change, facts) && q.virtual == p.virtual
    ensures Sound(key, p) && facts.ok && Free(key, p.objects, target, change.obj) ==>
              ok == FolderAllowed(key, p, change, facts) && (ok ==> Exact(key, q.objects, q.owners))
  {
    var id := change.obj;
    q := p;
    if facts.ok && Free(key, p.objects, target, id) {
      FolderDeleteFits(key, p, change, facts, target);
    }
    if Sound(key, p) && id in p.objects {
      DropExact(key, p.objects, p.owners, id);
      OthersElsewhere(key, p.objects, p.owners, id);
    }
    hide PathKey, Target, Free, FolderAllowed, ExactBut, Consistent, VirtualOk;
    if facts.intent {
      return id !in p.objects, q;
    }
    if id !in p.objects || !p.objects[id].isFolder || p.objects[id].path != target {
      return false, q;
    }
    var todo := p.objects.Keys;
    while todo != {}
      invariant todo <= p.objects.Keys
      invariant forall z :: z in p.objects && z !in todo && z != id ==>
                  !(target <= p.objects[z].path && p.objects[z].path != target)
      decreases |todo|
    {
      var z :| z in todo;
      todo := todo - {z};
      if z != id && target < p.objects[z].path {
        return false, q;
      }
    }
    q := p.(objects := p.objects - {id}, owners := p.owners - {PathKey(key, target)});
    ok := true;
  }

  lemma OthersElsewhere(key: Key, objects: Objects, owners: Owners, id: Uuid)
    requires Exact(key, objects, owners) && id in objects
    ensures forall z :: z in objects && z != id ==> objects[z].path != objects[id].path
  {
  }

  lemma FolderConsistent(key: Key, p: Plans, change: Change, facts: Facts)
    requires Sound(key, p) && FolderAllowed(key, p, change, facts) && ValidIds(change) && change.otype == Folder
             && FreshCreate(p.objects, change)
    ensures Consistent(FolderObjects(p.objects, change, facts))
  {
    var target, id := Target(p.objects, change.parent, change.name).value, change.obj;
    ExactIsApart(key, p.objects, p.owners);
    hide Exact, PathKey, VirtualOk, Apart;
    match change.kind {
      case Create =>
        TargetPlaced(p.objects, change, Obj(true, target, ParentId(change.parent)));
        hide Consistent, Placed, Target;
        PutConsistent(p.objects, id, Obj(true, target, ParentId(change.parent)));
      case Move =>
        if p.objects[id].path != target {
          MovableNow(key, p.objects, change, target);
          hide Consistent, Target, Free, Relocated;
          RelocatedConsistent(key, p.objects, id, change.parent, change.name);
        }
      case Delete =>
        if !facts.intent {
          ChildrenBelow(p.objects, id);
          DropConsistent(p.objects, id);
        }
    }
  }

  /** A child's path extends its parent's. */
  lemma ChildrenBelow(objects: Objects, id: Uuid)
    requires Consistent(objects) && id in objects
             && forall z :: z in objects && z != id ==> !(objects[id].path <= objects[z].path)
    ensures forall z :: z in objects ==> objects[z].parent != id
  {
    forall z | z in objects
      ensures objects[z].parent != id
    {
      assert Placed(objects, z);
      assert objects[z].path[..|objects[z].path| - 1] <= objects[z].path;
      assert Placed(objects, id);
    }
  }

  lemma FolderMoveTree(key: Key, p: Plans, change: Change, facts: Facts)
    requires Sound(key, p) && FolderAllowed(key, p, change, facts) && ValidIds(change) && change.otype == Folder
             && change.kind == Move
    ensures TreeOf(FolderObjects(p.objects, change, facts)) == TreeStep(TreeOf(p.objects), change)
  {
    var target, id := Target(p.objects, change.parent, change.name).value, change.obj;
    ExactIsApart(key, p.objects, p.owners);
    TargetEntry(p.objects, change.parent, change.name, true);
    TargetNonEmpty(p.objects, change.parent, change.name);
    hide Exact, PathKey, VirtualOk, Apart, TreeOf, Consistent, Relocated, Free, Target;
    if p.objects[id].path == target {
      SameTargetSameParent(key, p.objects, change);
      hide EntryOf;
      TreeSame(p.objects, id);
    } else {
      AloneByExact(key, p.objects, id);
      RelocatedTree(p.objects, id, target, ParentId(change.parent), change.name);
    }
  }

  lemma FolderTree(key: Key, p: Plans, change: Change, facts: Facts)
    requires Sound(key, p) && FolderAllowed(key, p, change, facts) && ValidIds(change) && change.otype == Folder
    ensures TreeOf(FolderObjects(p.objects, change, facts)) == TreeStep(TreeOf(p.objects), change)
  {
    if change.kind == Move {
      hide *;
      FolderMoveTree(key, p, change, facts);
    } else {
      assert Target(p.objects, change.parent, change.name).Some? && change.kind != Update;
      assert change.kind == Delete && facts.intent ==> change.obj !in p.objects;
      hide *;
      FolderPutTree(p.objects, change, facts);
    }
  }

  lemma FolderPutTree(objects: Objects, change: Change, facts: Facts)
    requires Target(objects, change.parent, change.name).Some? && change.otype == Folder
             && (change.kind == Create || change.kind == Delete)
    requires change.kind == Delete && facts.intent ==> change.obj !in objects
    ensures TreeOf(FolderObjects(objects, change, facts)) == TreeStep(TreeOf(objects), change)
  {
    TargetEntry(objects, change.parent, change.name, true);
    TreePut(objects, change.obj, Obj(true, Target(objects, change.parent, change.name).value, ParentId(change.parent)));
    hide TreeOf, EntryOf, Target, Relocated;
    if change.kind == Delete && facts.intent {
      assert objects - {change.obj} == objects;
    }
  }

  lemma TreeSame(objects: Objects, id: Uuid)
    requires id in objects
    ensures TreeOf(objects)[id := EntryOf(objects[id])] == TreeOf(objects)
  {
  }

  lemma AloneByExact(key: Key, objects: Objects, id: Uuid)
    requires Apart(key, objects) && id in objects
    ensures Alone(objects, id)
  {
    hide PathKey;
  }

  lemma FolderVirtual(key: Key, p: Plans, change: Change, facts: Facts, q: Plans)
    requires VirtualOk(p) && FolderAllowed(key, p, change, facts) && FreshCreate(p.objects, change)
             && change.otype == Folder
    requires q.objects == FolderObjects(p.objects, change, facts)
    requires q.virtual == if change.kind == Move then Refreshed(p.virtual, q.objects) else p.virtual
    ensures VirtualOk(q)
  {
    hide Free, NewPath, Target;
    if change.kind == Move {
      KindsKept(p.objects, change, facts);
    }
  }

  lemma KindsKept(objects: Objects, change: Change, facts: Facts)
    requires change.kind == Move && Target(objects, change.parent, change.name).Some?
    ensures var after := FolderObjects(objects, change, facts);
            after.Keys == objects.Keys && forall id :: id in objects ==> after[id].isFolder == objects[id].isFolder
  {
  }

  lemma FolderSound(key: Key, p: Plans, change: Change, facts: Facts, q: Plans)
    requires Sound(key, p) && FolderAllowed(key, p, change, facts) && ValidIds(change) && change.otype == Folder
             && FreshCreate(p.objects, change)
    requires Target(p.objects, change.parent, change.name).Some? && q.objects == FolderObjects(p.objects, change, facts)
    requires q.virtual == if change.kind == Move then Refreshed(p.virtual, q.objects) else p.virtual
    requires Exact(key, q.objects, q.owners)
    ensures Sound(key, q) && TreeOf(q.objects) == TreeStep(TreeOf(p.objects), change)
  {
    assert VirtualOk(p);
    hide *;
    FolderConsistent(key, p, change, facts);
    FolderTree(key, p, change, facts);
    FolderVirtual(key, p, change, facts, q);
    CloseSound(key, q);
  }

  // ---------------------------------------------------------------- the whole plan

  /** The server's tree after the first n changes. */
  function TreeRun(tree: map<Uuid, Entry>, changes: seq<Change>, n: nat): map<Uuid, Entry>
    requires n <= |changes|
  {
    if n == 0 then tree else TreeStep(TreeRun(tree, changes, n - 1), changes[n - 1])
  }

  /** Every folder the plan creates is new: not in the index and not created earlier in the plan. */
  predicate FreshPlan(objects: Objects, changes: seq<Change>) {
    forall i :: 0 <= i < |changes| && changes[i].otype == Folder && changes[i].kind == Create ==>
      changes[i].obj !in objects && forall j :: 0 <= j < i ==> changes[j].obj != changes[i].obj
  }

  lemma {:induction false} TreeKeys(tree: map<Uuid, Entry>, changes: seq<Change>, n: nat, id: Uuid)
    requires n <= |changes| && id in TreeRun(tree, changes, n)
    ensures id in tree || exists j :: 0 <= j < n && changes[j].obj == id
  {
    if n > 0 && changes[n - 1].obj != id {
      TreeKeys(tree, changes, n - 1, id);
    }
  }

  lemma FreshNow(objects: Objects, changes: seq<Change>, n: nat, now: Objects)
    requires FreshPlan(objects, changes) && n < |changes| && TreeOf(now) == TreeRun(TreeOf(objects), changes, n)
    ensures FreshCreate(now, changes[n])
  {
    if changes[n].otype == Folder && changes[n].kind == Create && changes[n].obj in now {
      assert changes[n].obj in TreeOf(now);
      TreeKeys(TreeOf(objects), changes, n, changes[n].obj);
    }
  }

  /** The tables match the tree the server would have, and no two live objects share a portable path. */
  ghost predicate PlanHolds(key: Key, objects: Objects, changes: seq<Change>, n: nat, p: Plans)
    requires n <= |changes|
  {
    Sound(key, p) && TreeOf(p.objects) == TreeRun(TreeOf(objects), changes, n)
  }

  lemma PlanStep(key: Key, objects: Objects, changes: seq<Change>, n: nat, p: Plans, facts: Facts, q: Plans)
    requires n < |changes| && PlanHolds(key, objects, changes, n, p) && FreshPlan(objects, changes)
             && ValidIds(changes[n])
    requires Target(p.objects, changes[n].parent, changes[n].name).Some?
    requires Allowed(key, p, changes[n], facts)
    requires if changes[n].otype == Folder then
               && q.objects == FolderObjects(p.objects, changes[n], facts)
               && q.virtual == (if changes[n].kind == Move then Refreshed(p.virtual, q.objects) else p.virtual)
               && (FreshCreate(p.objects, changes[n]) ==> Exact(key, q.objects, q.owners))
             else q == NoteNext(key, p, changes[n])
    ensures PlanHolds(key, objects, changes, n + 1, q)
  {
    hide Sound, FolderAllowed, NoteAllowed, FolderObjects, NoteNext, Refreshed, FreshPlan, FreshCreate, TreeOf,
         TreeStep, Exact, Target, ValidIds;
    FreshNow(objects, changes, n, p.objects);
    if changes[n].otype == Folder {
      FolderSound(key, p, changes[n], facts, q);
    } else {
      NoteSound(key, p, changes[n], facts);
    }
  }

  /** The table as it is first filled: every portable path of an object, given to one of the objects that have it. */
  ghost predicate Filled(key: Key, objects: Objects, todo: set<Uuid>, owners: Owners) {
    && (forall k :: k in owners ==>
          owners[k] in objects && owners[k] !in todo && PathKey(key, objects[owners[k]].path) == k)
    && forall id :: id in objects && id !in todo ==> PathKey(key, objects[id].path) in owners
  }

  lemma FillOne(key: Key, objects: Objects, todo: set<Uuid>, owners: Owners, id: Uuid)
    requires Filled(key, objects, todo, owners) && id in objects && id in todo
    ensures Filled(key, objects, todo - {id}, owners[PathKey(key, objects[id].path) := id])
  {
    hide PathKey;
  }

  lemma FilledExact(key: Key, objects: Objects, owners: Owners)
    requires Filled(key, objects, {}, owners)
    ensures Exact(key, objects, owners) <==> Apart(key, objects)
  {
    hide PathKey;
  }

  /** Fills the owner table from the index, in no particular order: it is the exact inverse if and only if no two
      indexed objects share a portable path. */
  method OwnersOf(key: Key, objects: Objects) returns (owners: Owners)
    ensures Filled(key, objects, {}, owners) && (Exact(key, objects, owners) <==> Apart(key, objects))
  {
    owners := map[];
    var todo := objects.Keys;
    while todo != {}
      invariant todo <= objects.Keys && Filled(key, objects, todo, owners)
      decreases |todo|
    {
      hide Filled, PathKey;
      var id :| id in todo;
      FillOne(key, objects, todo, owners, id);
      owners := owners[PathKey(key, objects[id].path) := id];
      todo := todo - {id};
    }
    FilledExact(key, objects, owners);
  }

  lemma FreshKeeps(key: Key, objects: Objects, change: Change)
    requires Target(objects, change.parent, change.name).Some?
    ensures change.otype == Folder && FreshCreate(objects, change) ==> KeepsPath(key, objects, change)
  {
    hide Target, PathKey;
  }

  /** The objects and step records a change leads to; the owner table is not looked at. */
  function Stepped(key: Key, p: Plans, change: Change, facts: Facts): Plans {
    if Target(p.objects, change.parent, change.name) == None then p
    else if change.otype == Folder then
      var objects := FolderObjects(p.objects, change, facts);
      Plans(objects, map[], if change.kind == Move then Refreshed(p.virtual, objects) else p.virtual)
    else NoteNext(key, p, change).(owners := map[])
  }

  /** What the first n changes lead to from the index. */
  function Course(key: Key, objects: Objects, changes: seq<Change>, facts: seq<Facts>, n: nat): Plans
    requires n <= |changes| == |facts|
  {
    if n == 0 then Plans(objects, map[], map[])
    else Stepped(key, Course(key, objects, changes, facts, n - 1), changes[n - 1], facts[n - 1])
  }

  /** Each of the first n changes is allowed on what those before it lead to. */
  ghost predicate AllAllowed(key: Key, objects: Objects, changes: seq<Change>, facts: seq<Facts>, n: nat)
    requires n <= |changes| == |facts|
  {
    forall i :: 0 <= i < n ==> Allowed(key, Course(key, objects, changes, facts, i), changes[i], facts[i])
  }

  /** The n-th change is the first that is not allowed, and the tables are what those before it lead to. */
  ghost predicate RefusedAt(key: Key, objects: Objects, changes: seq<Change>, facts: seq<Facts>, n: nat, p: Plans)
    requires n < |changes| == |facts|
  {
    && PlanHolds(key, objects, changes, n, p) && Alike(p, Course(key, objects, changes, facts, n))
    && !Allowed(key, p, changes[n], facts[n])
  }

  /** The same objects and step records, whatever the owner tables. */
  predicate Alike(p: Plans, q: Plans) {
    p.objects == q.objects && p.virtual == q.virtual
  }

  lemma AlikeAllowed(key: Key, p: Plans, q: Plans, change: Change, facts: Facts)
    requires Alike(p, q)
    ensures Allowed(key, p, change, facts) <==> Allowed(key, q, change, facts)
  {
    hide Free, Target;
  }

  lemma AlikeStepped(key: Key, p: Plans, q: Plans, change: Change, facts: Facts)
    requires Alike(p, q) && Target(p.objects, change.parent, change.name).Some?
    ensures var r := Stepped(key, q, change, facts);
            if change.otype == Folder then
              && r.objects == FolderObjects(p.objects, change, facts)
              && r.virtual == if change.kind == Move then Refreshed(p.virtual, r.objects) else p.virtual
            else Alike(NoteNext(key, p, change), r)
  {
    hide Target, FolderObjects, Refreshed, Vacated;
  }

  lemma CourseNext(key: Key, objects: Objects, changes: seq<Change>, facts: seq<Facts>, n: nat)
    requires n < |changes| == |facts|
    ensures Course(key, objects, changes, facts, n + 1)
            == Stepped(key, Course(key, objects, changes, facts, n), changes[n], facts[n])
  {
    hide Stepped;
  }

  lemma AllAllowedNext(key: Key, objects: Objects, changes: seq<Change>, facts: seq<Facts>, n: nat)
    requires n < |changes| == |facts|
    ensures AllAllowed(key, objects, changes, facts, n + 1) <==>
            AllAllowed(key, objects, changes, facts, n)
            && Allowed(key, Course(key, objects, changes, facts, n), changes[n], facts[n])
    ensures AllAllowed(key, objects, changes, facts, |changes|) ==> AllAllowed(key, objects, changes, facts, n + 1)
  {
    hide Allowed, Course;
  }

  /** Fill the tables from the index and run the plan over them. Over a well-formed index without shared portable paths,
      a plan that creates only new folders is accepted exactly if each change is allowed on what those before it lead
      to; then the tables are what all of them lead to, the owner table is the exact inverse of the objects' portable
      paths, and the objects are the server's tree after the same changes. */
  method PreflightNotePlan(key: Key, objects: Objects, changes: seq<Change>, facts: seq<Facts>)
    returns (ok: bool, p: Plans)
    requires |facts| == |changes| && forall i :: 0 <= i < |changes| ==> ValidIds(changes[i])
    ensures Consistent(objects) && Apart(key, objects) && FreshPlan(objects, changes) ==>
              (ok <==> AllAllowed(key, objects, changes, facts, |changes|))
    ensures Consistent(objects) && Apart(key, objects) && FreshPlan(objects, changes) && ok ==>
              && PlanHolds(key, objects, changes, |changes|, p) && Apart(key, p.objects)
              && Alike(p, Course(key, objects, changes, facts, |changes|))
    ensures Consistent(objects) && Apart(key, objects) && FreshPlan(objects, changes) && !ok ==>
              exists n :: 0 <= n < |changes| && RefusedAt(key, objects, changes, facts, n, p)
  {
    ghost var sound := Consistent(objects) && Apart(key, objects) && FreshPlan(objects, changes);
    var owners := OwnersOf(key, objects);
    p := Plans(objects, owners, map[]);
    hide Consistent, Exact, Apart, Filled, KeepsPath, Target, FreshPlan, FolderAllowed, NoteAllowed, FolderObjects,
         NoteNext, Refreshed, TreeOf, VirtualOk, FreshCreate, ValidIds, Stepped, AllAllowed, Alike;
    if sound {
      NothingVirtual(p);
    }
    CourseStarts(key, objects, changes, facts, owners);
    for n := 0 to |changes|
      invariant sound ==> PlanHolds(key, objects, changes, n, p) && AllAllowed(key, objects, changes, facts, n)
      invariant sound ==> Alike(p, Course(key, objects, changes, facts, n))
    {
      var q: Plans;
      if changes[n].otype == Folder {
        ok, q := PreflightFolder(key, p, changes[n], facts[n]);
      } else {
        ok, q := PreflightNote(key, p, changes[n], facts[n]);
      }
      if sound {
        AllAllowedNext(key, objects, changes, facts, n);
        AlikeAllowed(key, p, Course(key, objects, changes, facts, n), changes[n], facts[n]);
      }
      if !ok {
        assert sound ==> RefusedAt(key, objects, changes, facts, n, p);
        return false, p;
      }
      if sound {
        FreshKeeps(key, p.objects, changes[n]);
        PlanStep(key, objects, changes, n, p, facts[n], q);
        CourseNext(key, objects, changes, facts, n);
        AlikeStepped(key, p, Course(key, objects, changes, facts, n), changes[n], facts[n]);
        AlikeIf(q, Course(key, objects, changes, facts, n + 1));
      }
      p := q;
    }
    if sound {
      ExactIsApart(key, p.objects, p.owners);
    }
    ok := true;
  }

  lemma AlikeIf(p: Plans, q: Plans)
    ensures Alike(p, q) <==> p.objects == q.objects && p.virtual == q.virtual
  {
  }

  lemma CourseStarts(key: Key, objects: Objects, changes: seq<Change>, facts: seq<Facts>, owners: Owners)
    requires |changes| == |facts|
    ensures AllAllowed(key, objects, changes, facts, 0)
    ensures Alike(Plans(objects, owners, map[]), Course(key, objects, changes, facts, 0))
  {
  }

  lemma NothingVirtual(p: Plans)
    requires p.virtual == map[]
    ensures VirtualOk(p)
  {
  }

  /** A folder indexed on one path. */
  function IndexedFolder(): Plans {
    Plans(map[0x8000_0000_0000_0001 := Obj(true, ["a"], NIL)], map[["a"] := 0x8000_0000_0000_0001], map[])
  }

  /** The server's create of it on another. */
  function CreateElsewhere(): Change {
    Change(1, 0x7000_8000_0000_0000_0001, 0x8000_0000_0000_0001, Folder, Create, 1, None, "b", [], false)
  }

  /** The step is accepted, and the table keeps the folder's old path. */
  method IndexedCreate(key: Key) returns (ok: bool, q: Plans)
    requires forall s :: key(s) == s
    ensures ValidChange(CreateElsewhere()) && Sound(key, IndexedFolder()) && ok && !Exact(key, q.objects, q.owners)
  {
    OneFolder(key);
    ok, q := PreflightFolder(key, IndexedFolder(), CreateElsewhere(), Facts(true, false));
  }

  lemma OneFolder(key: Key)
    requires forall s :: key(s) == s
    ensures ValidChange(CreateElsewhere()) && Sound(key, IndexedFolder())
    ensures FolderAllowed(key, IndexedFolder(), CreateElsewhere(), Facts(true, false))
    ensures Target(IndexedFolder().objects, CreateElsewhere().parent, CreateElsewhere().name).Some?
    ensures !KeepsPath(key, IndexedFolder().objects, CreateElsewhere())
  {
    hide *;
    ElsewhereValid();
    IndexedSound(key);
    ElsewhereAllowed(key);
    ElsewhereMoves(key);
  }

  lemma IndexedSound(key: Key)
    requires forall s :: key(s) == s
    ensures Sound(key, IndexedFolder())
  {
    OneName(key, "a");
    hide PathKey;
  }

  lemma ElsewhereAllowed(key: Key)
    ensures FolderAllowed(key, IndexedFolder(), CreateElsewhere(), Facts(true, false))
  {
    hide PathKey;
  }

  lemma ElsewhereMoves(key: Key)
    requires forall s :: key(s) == s
    ensures Target(IndexedFolder().objects, CreateElsewhere().parent, CreateElsewhere().name).Some?
    ensures !KeepsPath(key, IndexedFolder().objects, CreateElsewhere())
  {
    OneName(key, "a");
    OneName(key, "b");
    hide PathKey;
    assert ["a"][0] != ["b"][0];
  }

  lemma ElsewhereValid()
    ensures ValidChange(CreateElsewhere())
  {
    SingleLetter('b');
    hide ValidComponent;
  }

  lemma OneName(key: Key, name: string)
    requires forall s :: key(s) == s
    ensures PathKey(key, [name]) == [name]
  {
    assert [name][..0] == [];
  }
}
