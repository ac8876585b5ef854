/** The virtual execution of a remote plan: objects by id, and the table of who owns which portable path. */
module Preflight {
  import opened Ids
  import opened Naming
  import opened Optional

  /** An indexed object; the parent is NIL at the root. */
  datatype Obj = Obj(isFolder: bool, path: Path, parent: Uuid)

  type Objects = map<Uuid, Obj>

  type Key = string -> string

  /** The portable form of a path: its components through the collision key. */
  function PathKey(key: Key, path: Path): Path {
    if path == [] then [] else PathKey(key, path[..|path| - 1]) + [key(path[|path| - 1])]
  }

  type Owners = map<Path, Uuid>

  // ---------------------------------------------------------------- what the tables should be

  /** Each object's path is its parent's path and its own name. */
  predicate Placed(objects: Objects, id: Uuid)
    requires id in objects
  {
    var o := objects[id];
    && o.path != []
    && (if o.parent == NIL then |o.path| == 1
        else o.parent in objects && objects[o.parent].isFolder && objects[o.parent].path == o.path[..|o.path| - 1])
  }

  ghost predicate Consistent(objects: Objects) {
    NIL !in objects && forall id :: id in objects ==> Placed(objects, id)
  }

  /** The owner table is exactly the inverse of the objects' portable paths, apart from the objects in `missing`. */
  ghost predicate ExactBut(key: Key, objects: Objects, owners: Owners, missing: set<Uuid>) {
    && (forall k :: k in owners ==>
          owners[k] in objects && owners[k] !in missing && PathKey(key, objects[owners[k]].path) == k)
    && (forall id :: id in objects && id !in missing ==>
          PathKey(key, objects[id].path) in owners && owners[PathKey(key, objects[id].path)] == id)
  }

  ghost predicate Exact(key: Key, objects: Objects, owners: Owners) {
    ExactBut(key, objects, owners, {})
  }

  /** No two objects share a portable path. */
  ghost predicate Apart(key: Key, objects: Objects) {
    forall a, b :: a in objects && b in objects && PathKey(key, objects[a].path) == PathKey(key, objects[b].path) ==>
      a == b
  }

  lemma ExactIsApart(key: Key, objects: Objects, owners: Owners)
    requires Exact(key, objects, owners)
    ensures Apart(key, objects)
  {
  }

  // ---------------------------------------------------------------- paths and keys

  lemma {:induction false} KeyLength(key: Key, path: Path)
    ensures |PathKey(key, path)| == |path|
  {
    if path != [] {
      KeyLength(key, path[..|path| - 1]);
    }
  }

  lemma {:induction false} KeyAppend(key: Key, a: Path, b: Path)
    ensures PathKey(key, a + b) == PathKey(key, a) + PathKey(key, b)
  {
    if b == [] {
      assert a + b == a;
    } else {
      assert (a + b)[..|a + b| - 1] == a + b[..|b| - 1];
      KeyAppend(key, a, b[..|b| - 1]);
    }
  }

  lemma KeyTake(key: Key, path: Path, n: nat)
    requires n <= |path|
    ensures |PathKey(key, path)| == |path| && PathKey(key, path[..n]) == PathKey(key, path)[..n]
    ensures PathKey(key, path[n..]) == PathKey(key, path)[n..]
  {
    assert path == path[..n] + path[n..];
    KeyAppend(key, path[..n], path[n..]);
    KeyLength(key, path[..n]);
    KeyLength(key, path);
  }

  /** Every prefix of an object's path is the path of an object. */
  lemma {:induction false} AncestorOf(objects: Objects, id: Uuid, n: nat) returns (z: Uuid)
    requires Consistent(objects) && id in objects && 0 < n <= |objects[id].path|
    ensures z in objects && objects[z].path == objects[id].path[..n]
    decreases |objects[id].path|
  {
    var path := objects[id].path;
    assert Placed(objects, id);
    if n == |path| {
      z := id;
      assert path[..n] == path;
    } else {
      z := AncestorOf(objects, objects[id].parent, n);
      assert path[..|path| - 1][..n] == path[..n];
    }
  }

  // ---------------------------------------------------------------- moving a subtree

  /** The path of an object when the folder at `source` goes to `target`. */
  function NewPath(path: Path, source: Path, target: Path): Path {
    if source <= path then target + path[|source|..] else path
  }

  function Relocated(objects: Objects, moved: Uuid, source: Path, target: Path, parent: Uuid): Objects {
    map id | id in objects ::
      Obj(objects[id].isFolder, NewPath(objects[id].path, source, target),
          if id == moved then parent else objects[id].parent)
  }

  /** Where a change puts its object. */
  function Target(objects: Objects, parent: Option<Uuid>, name: string): Option<Path> {
    if parent == None then Some([name])
    else if parent.value in objects && objects[parent.value].isFolder then Some(objects[parent.value].path + [name])
    else None
  }

  function ParentId(parent: Option<Uuid>): Uuid {
    if parent == None then NIL else parent.value
  }

  /** A folder move that passes the checks: a known folder, a free target, and no cycle. */
  ghost predicate Movable(key: Key, objects: Objects, moved: Uuid, parent: Option<Uuid>, name: string) {
    && moved in objects && objects[moved].isFolder && Target(objects, parent, name).Some?
    && var target := Target(objects, parent, name).value;
       && !(objects[moved].path <= target)
       && forall z :: z in objects && PathKey(key, objects[z].path) == PathKey(key, target) ==> z == moved
  }

  /** A path with the portable form of an object's path starts with the portable form of one of its ancestors. */
  lemma KeyHead(key: Key, objects: Objects, head: Path, rest: Path, b: Uuid) returns (z: Uuid)
    requires Consistent(objects) && b in objects && head != []
             && PathKey(key, head + rest) == PathKey(key, objects[b].path)
    ensures z in objects && PathKey(key, objects[z].path) == PathKey(key, head)
  {
    hide Consistent;
    KeyLength(key, head + rest);
    KeyLength(key, objects[b].path);
    z := AncestorOf(objects, b, |head|);
    KeyTake(key, objects[b].path, |head|);
    KeyTake(key, head + rest, |head|);
    assert (head + rest)[..|head|] == head;
  }

  lemma TargetNonEmpty(objects: Objects, parent: Option<Uuid>, name: string)
    requires Target(objects, parent, name).Some?
    ensures Target(objects, parent, name).value != []
  {
  }

  /** The new portable path of a moved object is nobody else's, old or new. */
  lemma NewKeyFree(key: Key, objects: Objects, moved: Uuid, parent: Option<Uuid>, name: string, a: Uuid, b: Uuid)
    requires Consistent(objects) && Apart(key, objects) && Movable(key, objects, moved, parent, name)
    requires a in objects && b in objects && objects[moved].path <= objects[a].path
    requires PathKey(key, NewPath(objects[a].path, objects[moved].path, Target(objects, parent, name).value))
             == PathKey(key, objects[b].path)
    ensures a == b
  {
    var source, target := objects[moved].path, Target(objects, parent, name).value;
    var rest := objects[a].path[|source|..];
    assert source + rest == objects[a].path;
    hide *;
    TargetOwner(key, objects, moved, parent, name, rest, b);
    SameTail(key, source, target, rest);
    ApartAt(key, objects, a, b);
  }

  /** Only the moved folder can have an object at or below the portable form of its target. */
  lemma TargetOwner(key: Key, objects: Objects, moved: Uuid, parent: Option<Uuid>, name: string, rest: Path, b: Uuid)
    requires Consistent(objects) && Movable(key, objects, moved, parent, name) && b in objects
    requires PathKey(key, Target(objects, parent, name).value + rest) == PathKey(key, objects[b].path)
    ensures PathKey(key, objects[moved].path) == PathKey(key, Target(objects, parent, name).value)
  {
    TargetNonEmpty(objects, parent, name);
    hide Consistent, Target, PathKey;
    var z := KeyHead(key, objects, Target(objects, parent, name).value, rest, b);
    assert z == moved;
  }

  lemma SameTail(key: Key, a: Path, b: Path, rest: Path)
    requires PathKey(key, a) == PathKey(key, b)
    ensures PathKey(key, a + rest) == PathKey(key, b + rest)
  {
    KeyAppend(key, a, rest);
    KeyAppend(key, b, rest);
  }

  lemma ApartAt(key: Key, objects: Objects, a: Uuid, b: Uuid)
    requires Apart(key, objects) && a in objects && b in objects
             && PathKey(key, objects[a].path) == PathKey(key, objects[b].path)
    ensures a == b
  {
  }

  lemma NewKeysApart(key: Key, objects: Objects, source: Path, target: Path, a: Uuid, b: Uuid)
    requires Apart(key, objects) && a in objects && b in objects && source <= objects[a].path
             && source <= objects[b].path
    requires PathKey(key, target + objects[a].path[|source|..]) == PathKey(key, target + objects[b].path[|source|..])
    ensures a == b
  {
    var x, y := objects[a].path[|source|..], objects[b].path[|source|..];
    assert objects[a].path == source + x && objects[b].path == source + y;
    hide *;
    CancelHead(key, target, x, y);
    KeyAppend(key, source, x);
    KeyAppend(key, source, y);
    ApartAt(key, objects, a, b);
  }

  lemma CancelHead(key: Key, head: Path, x: Path, y: Path)
    requires PathKey(key, head + x) == PathKey(key, head + y)
    ensures PathKey(key, x) == PathKey(key, y)
  {
    hide PathKey;
    KeyAppend(key, head, x);
    KeyAppend(key, head, y);
    assert PathKey(key, x) == PathKey(key, head + x)[|PathKey(key, head)|..];
    assert PathKey(key, y) == PathKey(key, head + y)[|PathKey(key, head)|..];
  }

  lemma NotBelow(objects: Objects, moved: Uuid, parent: Option<Uuid>, name: string)
    requires moved in objects && Target(objects, parent, name).Some? && parent.Some?
    requires !(objects[moved].path <= Target(objects, parent, name).value)
    ensures var p, target := objects[parent.value].path, Target(objects, parent, name).value;
            target == p + [name] && target[..|target| - 1] == p && !(objects[moved].path <= p)
  {
    var p, source := objects[parent.value].path, objects[moved].path;
    assert source <= p ==> source <= p + [name];
  }

  lemma RootPlaced(objects: Objects, moved: Uuid, parent: Option<Uuid>, name: string)
    requires Consistent(objects) && moved in objects && Target(objects, parent, name).Some?
    requires !(objects[moved].path <= Target(objects, parent, name).value) && (parent.Some? ==> parent.value != NIL)
    ensures Placed(Relocated(objects, moved, objects[moved].path, Target(objects, parent, name).value,
                             ParentId(parent)), moved)
  {
    hide Consistent;
    var source, target := objects[moved].path, Target(objects, parent, name).value;
    assert source[|source|..] == [] && target + [] == target;
    if parent.Some? {
      NotBelow(objects, moved, parent, name);
    }
  }

  lemma BelowPlaced(objects: Objects, moved: Uuid, target: Path, parent: Uuid, id: Uuid)
    requires Consistent(objects) && moved in objects && objects[moved].isFolder && target != []
    requires id in objects && objects[moved].path <= objects[id].path && objects[id].path != objects[moved].path
    ensures Placed(Relocated(objects, moved, objects[moved].path, target, parent), id)
  {
    var source, o := objects[moved].path, objects[id];
    assert Placed(objects, id) && Placed(objects, moved);
    hide Consistent;
    var p := objects[o.parent].path;
    assert p == o.path[..|o.path| - 1] && source <= p;
    var now := target + o.path[|source|..];
    assert now[..|now| - 1] == target + p[|source|..];
  }

  lemma BesidePlaced(objects: Objects, moved: Uuid, target: Path, parent: Uuid, id: Uuid)
    requires Consistent(objects) && moved in objects
    requires id in objects && !(objects[moved].path <= objects[id].path)
    ensures Placed(Relocated(objects, moved, objects[moved].path, target, parent), id)
  {
    var source, o := objects[moved].path, objects[id];
    assert Placed(objects, id);
    hide Consistent;
    if o.parent != NIL {
      var p := objects[o.parent].path;
      assert source <= p ==> source <= o.path;
    }
  }

  lemma RelocatedConsistent(key: Key, objects: Objects, moved: Uuid, parent: Option<Uuid>, name: string)
    requires Consistent(objects) && Apart(key, objects) && Movable(key, objects, moved, parent, name)
             && (parent.Some? ==> parent.value != NIL)
    ensures Consistent(Relocated(objects, moved, objects[moved].path, Target(objects, parent, name).value,
                                 ParentId(parent)))
  {
    var source, target := objects[moved].path, Target(objects, parent, name).value;
    var after := Relocated(objects, moved, source, target, ParentId(parent));
    TargetNonEmpty(objects, parent, name);
    assert NIL !in objects && after.Keys == objects.Keys;
    hide Target, Relocated, Placed;
    forall id | id in after
      ensures Placed(after, id)
    {
      if id == moved {
        RootPlaced(objects, moved, parent, name);
      } else if source <= objects[id].path {
        assert objects[id].path != source;
        BelowPlaced(objects, moved, target, ParentId(parent), id);
      } else {
        BesidePlaced(objects, moved, target, ParentId(parent), id);
      }
    }
  }

  // ---------------------------------------------------------------- the tree behind the paths

  /** What the server knows of an object: its kind, parent and name. */
  datatype Entry = Entry(isFolder: bool, parent: Uuid, name: string)

  function EntryOf(o: Obj): Entry {
    Entry(o.isFolder, o.parent, if o.path == [] then "" else o.path[|o.path| - 1])
  }

  /** No other object has the same path. */
  ghost predicate Alone(objects: Objects, id: Uuid)
    requires id in objects
  {
    forall z :: z in objects && objects[z].path == objects[id].path ==> z == id
  }

  lemma AloneAt(objects: Objects, id: Uuid, z: Uuid)
    requires id in objects && Alone(objects, id) && z in objects && z != id
    ensures objects[z].path != objects[id].path
  {
  }

  function TreeOf(objects: Objects): map<Uuid, Entry> {
    map id | id in objects :: EntryOf(objects[id])
  }

  /** Rewriting the paths of a whole subtree is, behind the paths, the change of one parent and one name. */
  lemma RelocatedTree(objects: Objects, moved: Uuid, target: Path, parent: Uuid, name: string)
    requires Consistent(objects) && moved in objects && objects[moved].isFolder && target != []
             && target[|target| - 1] == name
    requires Alone(objects, moved)
    ensures TreeOf(Relocated(objects, moved, objects[moved].path, target, parent))
            == TreeOf(objects)[moved := Entry(true, parent, name)]
  {
    var after := Relocated(objects, moved, objects[moved].path, target, parent);
    assert after.Keys == objects.Keys;
    assert Placed(objects, moved);
    hide EntryOf, Relocated, Consistent, Placed, NewPath, Alone;
    forall id | id in objects
      ensures EntryOf(after[id]) == if id == moved then Entry(true, parent, name) else EntryOf(objects[id])
    {
      if id == moved {
        MovedEntry(objects, moved, target, parent, name);
      } else {
        RelocatedEntry(objects, moved, target, parent, id);
      }
    }
    TreeByEntries(objects, after, moved, Entry(true, parent, name));
  }

  lemma TreeByEntries(objects: Objects, after: Objects, moved: Uuid, e: Entry)
    requires after.Keys == objects.Keys && moved in objects
    requires forall id :: id in objects ==> EntryOf(after[id]) == if id == moved then e else EntryOf(objects[id])
    ensures TreeOf(after) == TreeOf(objects)[moved := e]
  {
    hide EntryOf;
  }

  lemma LastKept(path: Path, source: Path, target: Path)
    requires path != [] && target != [] && (source <= path ==> path != source)
    ensures NewPath(path, source, target) != []
            && NewPath(path, source, target)[|NewPath(path, source, target)| - 1] == path[|path| - 1]
  {
    if source <= path {
      var rest := path[|source|..];
      assert rest[|rest| - 1] == path[|path| - 1];
      assert (target + rest)[|target| + |rest| - 1] == rest[|rest| - 1];
    }
  }

  lemma RelocatedAt(objects: Objects, moved: Uuid, source: Path, target: Path, parent: Uuid, id: Uuid)
    requires id in objects
    ensures id in Relocated(objects, moved, source, target, parent)
    ensures Relocated(objects, moved, source, target, parent)[id] ==
            Obj(objects[id].isFolder, NewPath(objects[id].path, source, target),
                if id == moved then parent else objects[id].parent)
  {
  }

  lemma PlacedAt(objects: Objects, id: Uuid)
    requires Consistent(objects) && id in objects
    ensures Placed(objects, id) && objects[id].path != []
  {
  }

  lemma MovedEntry(objects: Objects, moved: Uuid, target: Path, parent: Uuid, name: string)
    requires moved in objects && objects[moved].isFolder && target != [] && target[|target| - 1] == name
    ensures EntryOf(Relocated(objects, moved, objects[moved].path, target, parent)[moved]) == Entry(true, parent, name)
  {
    hide Relocated, NewPath;
    RelocatedAt(objects, moved, objects[moved].path, target, parent, moved);
    RootPath(objects[moved].path, target);
  }

  lemma RelocatedEntry(objects: Objects, moved: Uuid, target: Path, parent: Uuid, id: Uuid)
    requires Consistent(objects) && moved in objects && target != [] && id in objects && id != moved
             && Alone(objects, moved)
    ensures EntryOf(Relocated(objects, moved, objects[moved].path, target, parent)[id]) == EntryOf(objects[id])
  {
    hide Consistent, Placed, Relocated, NewPath, Alone;
    PlacedAt(objects, id);
    RelocatedAt(objects, moved, objects[moved].path, target, parent, id);
    AloneAt(objects, moved, id);
    LastKept(objects[id].path, objects[moved].path, target);
  }

  lemma RootPath(source: Path, target: Path)
    ensures NewPath(source, source, target) == target
  {
    assert source[|source|..] == [] && target + [] == target;
  }
}
