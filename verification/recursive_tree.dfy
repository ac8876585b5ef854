/** What the queued operations below a refused folder would have built, and what their replacements build. */
module RecursiveTree {
  import opened Ids
  import opened Naming
  import opened Optional
  import opened Outbox
  import opened OutboxProgress
  import opened RecursiveRecovery
  import opened RecursiveReplacement

  datatype Node = Node(otype: ObjectType, parent: Uuid, name: string, blob: Hash)

  /** The tree the operations are applied to, by object. */
  type Tree = map<Uuid, Node>

  function At(t: Tree, o: Uuid): Option<Node> {
    if o in t then Some(t[o]) else None
  }

  predicate FolderAt(t: Tree, o: Uuid) {
    o in t && t[o].otype == Folder
  }

  /** A create needs its parent folder and a new object, an update an existing note; nothing else is ever played
      here. */
  function Apply(t: Tree, m: Mutation): Option<Tree> {
    match m.kind
    case Create =>
      if m.obj in t || m.parent == None || !FolderAt(t, m.parent.value) then None
      else Some(t[m.obj := Node(m.otype, m.parent.value, m.name, m.blob)])
    case Update =>
      if m.obj !in t || t[m.obj].otype != Note then None else Some(t[m.obj := t[m.obj].(blob := m.blob)])
    case Move => None
    case Delete => None
  }

  function Play(t: Tree, ms: seq<Mutation>): Option<Tree> {
    if ms == [] then Some(t)
    else
      var before := Play(t, ms[..|ms| - 1]);
      if before == None then None else Apply(before.value, ms[|ms| - 1])
  }

  function Hung(man: Manifest, under: Uuid, m: Member, blob: Hash): Node {
    Node(m.otype, NewParent(man, under, m), m.name, blob)
  }

  /** What the finished tree holds at an object: the manifest's members below `under`, and the base elsewhere. */
  function Target(man: Manifest, under: Uuid, base: Tree, o: Uuid): Option<Node> {
    var k := Find(man.members, o);
    if k < |man.members| then Some(Hung(man, under, man.members[k], man.members[k].finalBlob)) else At(base, o)
  }

  ghost predicate Holds(t: Tree, man: Manifest, under: Uuid, base: Tree) {
    forall o :: At(t, o) == Target(man, under, base, o)
  }

  // ---------------------------------------------------------------- the retired operations, in any order they allow

  function OpsIn(s: State, order: seq<nat>): set<Uuid> {
    if order == [] then {}
    else OpsIn(s, order[..|order| - 1]) + (var i := order[|order| - 1]; if i < |s.rows| then {s.rows[i].m.op} else {})
  }

  predicate InManifest(s: State, man: Manifest, i: nat) {
    i < |s.rows| && OldOpOf(man, s.rows[i].m.op)
  }

  /** Row i may be sent after the operations `done`: it is new, and every manifest operation it waits for is among
      them. */
  predicate MayFollow(s: State, man: Manifest, i: nat, done: set<Uuid>) {
    && InManifest(s, man, i) && s.rows[i].m.op !in done
    && forall d :: d in Deps(s.rows[i].m) && OldOpOf(man, d) ==> d in done
  }

  predicate Allowed(s: State, man: Manifest, order: seq<nat>) {
    order == [] || (Allowed(s, man, order[..|order| - 1])
                    && MayFollow(s, man, order[|order| - 1], OpsIn(s, order[..|order| - 1])))
  }

  function Sent(s: State, order: seq<nat>): seq<Mutation> {
    if order == [] then []
    else
      var i := order[|order| - 1];
      Sent(s, order[..|order| - 1]) + (if i < |s.rows| then [s.rows[i].m] else [])
  }

  /** The note's bytes once the operations `done` are played: the last of its first n updates among them. */
  function HashAfter(m: Member, done: set<Uuid>, n: nat): Hash
    requires n <= |m.chain|
  {
    if n == 0 then m.createBlob
    else if m.chain[n - 1].op in done then m.chain[n - 1].hash else HashAfter(m, done, n - 1)
  }

  /** What the growing tree holds at an object. */
  function Slot(man: Manifest, base: Tree, done: set<Uuid>, o: Uuid): Option<Node> {
    var k := Find(man.members, o);
    if k < |man.members| then
      var m := man.members[k];
      if m.oldOp in done then Some(Node(m.otype, m.parent, m.name, HashAfter(m, done, |m.chain|))) else None
    else At(base, o)
  }

  ghost predicate Grown(t: Tree, man: Manifest, base: Tree, done: set<Uuid>) {
    forall o :: At(t, o) == Slot(man, base, done, o)
  }

  /** An update is only done after the operation before it. */
  predicate ChainClosed(m: Member, done: set<Uuid>) {
    forall j :: 0 <= j < |m.chain| && m.chain[j].op in done ==> Previous(m, j) in done
  }

  ghost predicate Closed(man: Manifest, done: set<Uuid>) {
    forall k :: 0 <= k < |man.members| ==> ChainClosed(man.members[k], done)
  }

  // ---------------------------------------------------------------- operations are told apart

  lemma {:induction false} OpsSeen(man: Manifest, n: nat, j: nat, op: Uuid)
    requires j < n <= |man.members| && op in OpsOf(man.members[j])
    ensures op in SeenOps(man, n)
  {
    if j < n - 1 {
      OpsSeen(man, n - 1, j, op);
    }
  }

  lemma NotSeen(m: Member, seen: set<Uuid>, op: Uuid)
    requires OpsNew(m, seen) && op in OpsOf(m)
    ensures op !in seen
  {
    ChainHas(m.chain, op);
  }

  /** No operation belongs to two members. */
  lemma OpOfOne(man: Manifest, j: nat, k: nat, op: Uuid)
    requires ManifestShape(man) && j < |man.members| && k < |man.members|
    requires op in OpsOf(man.members[j]) && op in OpsOf(man.members[k])
    ensures j == k
  {
    hide *;
    ShapeOf(man, j);
    ShapeOf(man, k);
    if j < k {
      OpsSeen(man, k, j, op);
      NotSeen(man.members[k], SeenOps(man, k), op);
      assert false;
    } else if k < j {
      OpsSeen(man, j, k, op);
      NotSeen(man.members[j], SeenOps(man, j), op);
      assert false;
    }
  }

  lemma ChainOpOf(m: Member, j: nat)
    requires j < |m.chain|
    ensures m.chain[j].op in OpsOf(m)
  {
    ChainHas(m.chain, m.chain[j].op);
  }

  lemma OldOpIn(m: Member)
    ensures m.oldOp in OpsOf(m)
  {
  }

  /** The operations of one member are told apart too. */
  lemma ChainDistinct(m: Member, seen: set<Uuid>, i: nat, j: nat)
    requires OpsNew(m, seen) && i < j < |m.chain|
    ensures m.chain[i].op != m.chain[j].op && m.chain[i].op != m.oldOp && m.chain[j].op != m.oldOp
  {
    ChainHas(m.chain[..j], m.chain[i].op);
    assert m.chain[..j][i] == m.chain[i];
  }

  lemma FirstDistinct(m: Member, seen: set<Uuid>, i: nat)
    requires OpsNew(m, seen) && i < |m.chain|
    ensures m.chain[i].op != m.oldOp
  {
  }

  lemma {:induction false} FindIs(members: seq<Member>, k: nat)
    requires k < |members| && forall i, j :: 0 <= i < j < |members| ==> members[i].obj != members[j].obj
    ensures Find(members, members[k].obj) == k
  {
    var j := Find(members, members[k].obj);
    assert !(j < k) && !(k < j);
  }

  lemma FindMember(man: Manifest, k: nat)
    requires ManifestShape(man) && k < |man.members|
    ensures Find(man.members, man.members[k].obj) == k
  {
    forall i, j | 0 <= i < j < |man.members|
      ensures man.members[i].obj != man.members[j].obj
    {
      ShapeOf(man, j);
      ObjsDiffer(man, j, i);
    }
    hide *;
    FindIs(man.members, k);
  }

  // ---------------------------------------------------------------- playing one create

  /** The rows of the manifest are the members' creates and updates. */
  lemma RowOf(s: State, op: Uuid, i: nat)
    requires WellFormed(s) && i < |s.rows| && s.rows[i].m.op == op
    ensures IndexOf(s, op, |s.rows|) == i
  {
    IndexIs(s, i, |s.rows|);
  }

  lemma CreateOf(s: State, man: Manifest, root: Uuid, k: nat, i: nat)
    requires WellFormed(s) && TopologyOk(s, man, root) && k < |man.members| && i < |s.rows|
             && s.rows[i].m.op == man.members[k].oldOp
    ensures CreateRow(s, i, man.members[k], Dependency(man, man.members[k]))
    ensures man.members[k].depth == 1 ==> man.members[k].parent == root
  {
    hide *;
    QueuedMember(s, man, root, k);
    RowOf(s, man.members[k].oldOp, i);
    QueuedCreate(s, man, root, man.members[k]);
  }

  lemma QueuedCreate(s: State, man: Manifest, root: Uuid, m: Member)
    requires MemberQueued(s, man, root, m)
    ensures CreateRow(s, IndexOf(s, m.oldOp, |s.rows|), m, Dependency(man, m))
    ensures m.depth == 1 ==> m.parent == root
    ensures m.otype == Note ==> FinalOf(m) == m.finalBlob
  {
    hide CreateRow, UpdateRow, IndexOf, CountOf, FinalOf, Dependency;
  }

  lemma UpdateOf(s: State, man: Manifest, root: Uuid, k: nat, j: nat, i: nat)
    requires WellFormed(s) && TopologyOk(s, man, root) && k < |man.members| && j < |man.members[k].chain|
    requires i < |s.rows| && s.rows[i].m.op == man.members[k].chain[j].op
    ensures UpdateRow(s, i, man.members[k], j)
  {
    hide *;
    QueuedMember(s, man, root, k);
    RowOf(s, man.members[k].chain[j].op, i);
    QueuedRows(s, man, root, man.members[k]);
  }

  lemma SlotIn(t: Tree, man: Manifest, base: Tree, done: set<Uuid>, o: Uuid)
    requires Grown(t, man, base, done)
    ensures At(t, o) == Slot(man, base, done, o)
  {
    hide Slot;
  }

  lemma SlotOf(man: Manifest, base: Tree, done: set<Uuid>, k: nat)
    requires ManifestShape(man) && k < |man.members|
    ensures var m := man.members[k];
            Slot(man, base, done, m.obj)
              == (if m.oldOp in done then Some(Node(m.otype, m.parent, m.name, HashAfter(m, done, |m.chain|)))
                  else None)
  {
    FindMember(man, k);
    hide ManifestShape, Find;
  }

  lemma SlotElsewhere(man: Manifest, base: Tree, done: set<Uuid>, o: Uuid)
    requires Find(man.members, o) == |man.members|
    ensures Slot(man, base, done, o) == At(base, o)
  {
  }

  lemma {:induction false} HashSame(m: Member, done: set<Uuid>, op: Uuid, n: nat)
    requires n <= |m.chain| && forall j :: 0 <= j < n ==> m.chain[j].op != op
    ensures HashAfter(m, done + {op}, n) == HashAfter(m, done, n)
  {
    if n > 0 {
      HashSame(m, done, op, n - 1);
    }
  }

  lemma {:induction false} HashSkips(m: Member, done: set<Uuid>, from: nat, n: nat)
    requires from <= n <= |m.chain| && forall j :: from <= j < n ==> m.chain[j].op !in done
    ensures HashAfter(m, done, n) == HashAfter(m, done, from)
  {
    if n > from {
      HashSkips(m, done, from, n - 1);
    }
  }

  /** Later updates of a chain are not done when an earlier one is not. */
  lemma {:induction false} LaterNotDone(m: Member, done: set<Uuid>, from: nat, j: nat)
    requires ChainClosed(m, done) && from <= j < |m.chain| && Previous(m, from) !in done
    ensures m.chain[j].op !in done
  {
    if j > from {
      LaterNotDone(m, done, from, j - 1);
      assert Previous(m, j) == m.chain[j - 1].op;
    }
  }

  /** An operation of one member leaves every other member's slot alone. */
  lemma SlotSame(man: Manifest, base: Tree, done: set<Uuid>, k: nat, op: Uuid, o: Uuid)
    requires ManifestShape(man) && k < |man.members| && op in OpsOf(man.members[k]) && o != man.members[k].obj
    ensures Slot(man, base, done + {op}, o) == Slot(man, base, done, o)
  {
    var j := Find(man.members, o);
    if j < |man.members| {
      var m := man.members[j];
      hide *;
      if op == m.oldOp {
        OldOpIn(m);
        OpOfOne(man, j, k, op);
        assert false;
      }
      forall i | 0 <= i < |m.chain|
        ensures m.chain[i].op != op
      {
        ChainOpOf(m, i);
        if m.chain[i].op == op {
          OpOfOne(man, j, k, op);
        }
      }
      HashSame(m, done, op, |m.chain|);
      SlotOf(man, base, done, j);
      SlotOf(man, base, done + {op}, j);
    } else {
      SlotElsewhere(man, base, done, o);
      SlotElsewhere(man, base, done + {op}, o);
    }
  }

  lemma GrownIf(t: Tree, man: Manifest, base: Tree, done: set<Uuid>)
    requires forall o :: At(t, o) == Slot(man, base, done, o)
    ensures Grown(t, man, base, done)
  {
  }

  lemma AtUpdated(t: Tree, o: Uuid, n: Node, x: Uuid)
    ensures At(t[o := n], x) == if x == o then Some(n) else At(t, x)
  {
  }

  /** One slot changed as the member's operation says, the others not at all. */
  lemma GrowsBy(t: Tree, man: Manifest, base: Tree, done: set<Uuid>, k: nat, op: Uuid, n: Node)
    requires ManifestShape(man) && Grown(t, man, base, done) && k < |man.members| && op in OpsOf(man.members[k])
    requires Slot(man, base, done + {op}, man.members[k].obj) == Some(n)
    ensures Grown(t[man.members[k].obj := n], man, base, done + {op})
  {
    hide *;
    var u := t[man.members[k].obj := n];
    forall o
      ensures At(u, o) == Slot(man, base, done + {op}, o)
    {
      AtUpdated(t, man.members[k].obj, n, o);
      if o != man.members[k].obj {
        SlotSame(man, base, done, k, op, o);
        SlotIn(t, man, base, done, o);
      }
    }
    GrownIf(u, man, base, done + {op});
  }

  /** Before its create, none of a note's updates is done. */
  lemma NoUpdateYet(m: Member, seen: set<Uuid>, done: set<Uuid>)
    requires OpsNew(m, seen) && ChainClosed(m, done) && m.oldOp !in done
    ensures HashAfter(m, done + {m.oldOp}, |m.chain|) == m.createBlob
  {
    forall j | 0 <= j < |m.chain|
      ensures m.chain[j].op !in done + {m.oldOp}
    {
      FirstDistinct(m, seen, j);
      LaterNotDone(m, done, 0, j);
    }
    hide OpsNew, ChainClosed;
    HashSkips(m, done + {m.oldOp}, 0, |m.chain|);
  }

  lemma ClosedAt(man: Manifest, done: set<Uuid>, k: nat)
    requires Closed(man, done) && k < |man.members|
    ensures ChainClosed(man.members[k], done)
  {
    hide ChainClosed;
  }

  lemma AtNone(t: Tree, o: Uuid)
    ensures At(t, o) == None <==> o !in t
    ensures At(t, o).Some? ==> o in t && At(t, o).value == t[o]
  {
  }

  lemma ApplyCreate(t: Tree, m: Mutation, parent: Uuid)
    requires m.kind == Create && m.obj !in t && m.parent == Some(parent) && FolderAt(t, parent)
    ensures Apply(t, m) == Some(t[m.obj := Node(m.otype, parent, m.name, m.blob)])
  {
  }

  lemma RowCreates(s: State, i: nat, m: Member, d: Uuid)
    requires CreateRow(s, i, m, d) && MemberShape(m)
    ensures var c := s.rows[i].m;
            c.kind == Create && c.obj == m.obj && c.otype == m.otype && c.parent == Some(m.parent) && c.name == m.name
                && c.blob == CreatedBlob(m)
            && c.op == m.oldOp && Deps(c) == {d}
  {
  }

  function CreatedBlob(m: Member): Hash {
    if m.otype == Folder then [] else m.createBlob
  }

  lemma FolderBlob(m: Member)
    requires MemberShape(m)
    ensures CreatedBlob(m) == m.createBlob
    ensures m.otype == Folder ==> m.chain == [] && m.finalBlob == []
  {
    hide ValidComponent, ValidObjectId, ValidOperationId, ValidRelative;
  }

  /** A member's create is played as soon as its parent folder is there. */
  lemma PlayCreate(s: State, t: Tree, man: Manifest, root: Uuid, base: Tree, done: set<Uuid>, k: nat, i: nat)
    requires WellFormed(s) && TopologyOk(s, man, root) && Grown(t, man, base, done) && Closed(man, done)
    requires k < |man.members| && i < |s.rows| && s.rows[i].m.op == man.members[k].oldOp
             && man.members[k].oldOp !in done
    requires FolderAt(t, man.members[k].parent)
    ensures var u := Apply(t, s.rows[i].m); u.Some? && Grown(u.value, man, base, done + {man.members[k].oldOp})
  {
    var m := man.members[k];
    hide *;
    QueuedMember(s, man, root, k);
    ShapeOf(man, k);
    CreateOf(s, man, root, k, i);
    RowCreates(s, i, m, Dependency(man, m));
    FolderBlob(m);
    SlotIn(t, man, base, done, m.obj);
    SlotOf(man, base, done, k);
    AtNone(t, m.obj);
    ApplyCreate(t, s.rows[i].m, m.parent);
    ClosedAt(man, done, k);
    NoUpdateYet(m, SeenOps(man, k), done);
    SlotOf(man, base, done + {m.oldOp}, k);
    OldOpIn(m);
    GrowsBy(t, man, base, done, k, m.oldOp, Node(m.otype, m.parent, m.name, CreatedBlob(m)));
  }

  // ---------------------------------------------------------------- playing one update

  lemma {:induction false} CreateDone(m: Member, done: set<Uuid>, j: nat)
    requires ChainClosed(m, done) && j <= |m.chain| && Previous(m, j) in done
    ensures m.oldOp in done
  {
    if j > 0 {
      assert m.chain[j - 1].op in done;
      CreateDone(m, done, j - 1);
    }
  }

  lemma UpdateLast(m: Member, seen: set<Uuid>, done: set<Uuid>, j: nat)
    requires OpsNew(m, seen) && ChainClosed(m, done) && j < |m.chain| && m.chain[j].op !in done
    ensures HashAfter(m, done + {m.chain[j].op}, |m.chain|) == m.chain[j].hash
  {
    forall i | j + 1 <= i < |m.chain|
      ensures m.chain[i].op !in done + {m.chain[j].op}
    {
      ChainDistinct(m, seen, j, i);
      LaterNotDone(m, done, j + 1, i);
    }
    hide OpsNew, ChainClosed;
    HashSkips(m, done + {m.chain[j].op}, j + 1, |m.chain|);
  }

  lemma RowUpdates(s: State, i: nat, m: Member, j: nat)
    requires j < |m.chain| && UpdateRow(s, i, m, j)
    ensures var c := s.rows[i].m;
            c.kind == Update && c.obj == m.obj && c.blob == m.chain[j].hash && Deps(c) == {Previous(m, j)}
  {
  }

  lemma ApplyUpdate(t: Tree, m: Mutation)
    requires m.kind == Update && m.obj in t && t[m.obj].otype == Note
    ensures Apply(t, m) == Some(t[m.obj := t[m.obj].(blob := m.blob)])
  {
  }

  lemma NoteOf(m: Member)
    requires MemberShape(m)
    ensures m.chain != [] ==> m.otype == Note
  {
    hide ValidComponent, ValidObjectId, ValidOperationId, ValidRelative;
  }

  /** A note's update is played as soon as the operation before it is. */
  lemma PlayUpdate(s: State, t: Tree, man: Manifest, root: Uuid, base: Tree, done: set<Uuid>, k: nat, j: nat, i: nat)
    requires WellFormed(s) && TopologyOk(s, man, root) && Grown(t, man, base, done) && Closed(man, done)
    requires k < |man.members| && j < |man.members[k].chain| && i < |s.rows|
             && s.rows[i].m.op == man.members[k].chain[j].op
    requires man.members[k].chain[j].op !in done && Previous(man.members[k], j) in done
    ensures var u := Apply(t, s.rows[i].m); u.Some? && Grown(u.value, man, base, done + {man.members[k].chain[j].op})
  {
    var m := man.members[k];
    hide *;
    QueuedMember(s, man, root, k);
    ShapeOf(man, k);
    NoteOf(m);
    UpdateOf(s, man, root, k, j, i);
    RowUpdates(s, i, m, j);
    ClosedAt(man, done, k);
    CreateDone(m, done, j);
    SlotIn(t, man, base, done, m.obj);
    SlotOf(man, base, done, k);
    AtNone(t, m.obj);
    ApplyUpdate(t, s.rows[i].m);
    UpdateLast(m, SeenOps(man, k), done, j);
    SlotOf(man, base, done + {m.chain[j].op}, k);
    ChainOpOf(m, j);
    GrowsBy(t, man, base, done, k, m.chain[j].op, t[m.obj].(blob := m.chain[j].hash));
  }

  // ---------------------------------------------------------------- playing them all

  /** The base holds the refused folder and none of the manifest's members. */
  ghost predicate Apart(man: Manifest, base: Tree, under: Uuid) {
    FolderAt(base, under) && forall k :: 0 <= k < |man.members| ==> man.members[k].obj !in base
  }

  lemma ApartAt(man: Manifest, base: Tree, under: Uuid, k: nat)
    requires Apart(man, base, under) && k < |man.members|
    ensures man.members[k].obj !in base && man.members[k].obj != under
  {
  }

  lemma UnderIsBase(man: Manifest, base: Tree, under: Uuid)
    requires Apart(man, base, under)
    ensures Find(man.members, under) == |man.members| && FolderAt(base, under)
  {
  }

  lemma ParentOf(man: Manifest, k: nat) returns (j: nat)
    requires ManifestShape(man) && k < |man.members| && man.members[k].depth != 1
    ensures j < |man.members| && Find(man.members, man.members[k].parent) == j
    ensures man.members[j].obj == man.members[k].parent && man.members[j].otype == Folder
  {
    ShapeOf(man, k);
    j :| 0 <= j < |man.members| && IsParent(man, j, k);
    FindMember(man, j);
    hide ManifestShape, MemberShape;
  }

  lemma DependencyOf(man: Manifest, m: Member)
    ensures m.depth != 1 && Find(man.members, m.parent) < |man.members| ==>
              Dependency(man, m) == man.members[Find(man.members, m.parent)].oldOp
  {
  }

  lemma FolderAtIs(t: Tree, o: Uuid)
    ensures FolderAt(t, o) <==> At(t, o).Some? && At(t, o).value.otype == Folder
  {
  }

  lemma ParentThere(s: State, t: Tree, man: Manifest, root: Uuid, base: Tree, done: set<Uuid>, k: nat, i: nat)
    requires WellFormed(s) && TopologyOk(s, man, root) && Grown(t, man, base, done) && Apart(man, base, root)
    requires k < |man.members| && i < |s.rows| && s.rows[i].m.op == man.members[k].oldOp && MayFollow(s, man, i, done)
    ensures FolderAt(t, man.members[k].parent)
  {
    var m := man.members[k];
    hide *;
    QueuedMember(s, man, root, k);
    ShapeOf(man, k);
    CreateOf(s, man, root, k, i);
    RowCreates(s, i, m, Dependency(man, m));
    SlotIn(t, man, base, done, m.parent);
    FolderAtIs(t, m.parent);
    if m.depth == 1 {
      UnderIsBase(man, base, root);
      SlotElsewhere(man, base, done, root);
      FolderAtIs(base, root);
    } else {
      var j := ParentOf(man, k);
      DependencyOf(man, m);
      MemberInManifest(man, j, man.members[j].oldOp);
      WaitsFor(s, man, i, done, man.members[j].oldOp);
      SlotOf(man, base, done, j);
    }
  }

  lemma WaitsFor(s: State, man: Manifest, i: nat, done: set<Uuid>, d: Uuid)
    requires MayFollow(s, man, i, done) && d in Deps(s.rows[i].m) && OldOpOf(man, d)
    ensures d in done
  {
    hide OldOpOf, Deps;
  }

  lemma ManifestOp(s: State, man: Manifest, i: nat, done: set<Uuid>) returns (k: nat, j: nat)
    requires MayFollow(s, man, i, done)
    ensures i < |s.rows| && s.rows[i].m.op !in done
    ensures k < |man.members| && j <= |man.members[k].chain|
    ensures s.rows[i].m.op == if j == 0 then man.members[k].oldOp else man.members[k].chain[j - 1].op
  {
    var op := s.rows[i].m.op;
    k :| 0 <= k < |man.members| && (man.members[k].oldOp == op || op in ChainOps(man.members[k].chain));
    if man.members[k].oldOp == op {
      j := 0;
    } else {
      ChainHas(man.members[k].chain, op);
      var x :| 0 <= x < |man.members[k].chain| && man.members[k].chain[x].op == op;
      j := x + 1;
    }
  }

  lemma PreviousIn(man: Manifest, k: nat, j: nat)
    requires k < |man.members| && j <= |man.members[k].chain|
    ensures OldOpOf(man, Previous(man.members[k], j))
  {
    var m := man.members[k];
    if j > 0 {
      ChainHas(m.chain, m.chain[j - 1].op);
    }
    MemberInManifest(man, k, Previous(m, j));
  }

  lemma ClosedIf(man: Manifest, done: set<Uuid>)
    requires forall k :: 0 <= k < |man.members| ==> ChainClosed(man.members[k], done)
    ensures Closed(man, done)
  {
  }

  lemma StaysClosed(m: Member, done: set<Uuid>, op: Uuid)
    requires ChainClosed(m, done) && forall j :: 0 <= j < |m.chain| && m.chain[j].op == op ==> Previous(m, j) in done
    ensures ChainClosed(m, done + {op})
  {
  }

  /** Sending an operation in its turn keeps the chains closed. */
  lemma SendingCloses(s: State, man: Manifest, root: Uuid, i: nat, done: set<Uuid>)
    requires WellFormed(s) && TopologyOk(s, man, root) && MayFollow(s, man, i, done) && Closed(man, done)
    ensures Closed(man, done + {s.rows[i].m.op})
  {
    var op := s.rows[i].m.op;
    hide *;
    forall k | 0 <= k < |man.members|
      ensures ChainClosed(man.members[k], done + {op})
    {
      var m := man.members[k];
      forall j | 0 <= j < |m.chain| && m.chain[j].op == op
        ensures Previous(m, j) in done
      {
        UpdateOf(s, man, root, k, j, i);
        RowUpdates(s, i, m, j);
        PreviousIn(man, k, j);
        WaitsFor(s, man, i, done, Previous(m, j));
      }
      ClosedAt(man, done, k);
      StaysClosed(m, done, op);
    }
    ClosedIf(man, done + {op});
  }

  lemma PlayOne(s: State, t: Tree, man: Manifest, root: Uuid, base: Tree, done: set<Uuid>, i: nat)
    requires WellFormed(s) && TopologyOk(s, man, root) && Apart(man, base, root)
    requires MayFollow(s, man, i, done) && Grown(t, man, base, done) && Closed(man, done)
    ensures var u := Apply(t, s.rows[i].m); u.Some? && Grown(u.value, man, base, done + {s.rows[i].m.op})
  {
    hide *;
    var k, j := ManifestOp(s, man, i, done);
    if j == 0 {
      ParentThere(s, t, man, root, base, done, k, i);
      PlayCreate(s, t, man, root, base, done, k, i);
    } else {
      UpdateOf(s, man, root, k, j - 1, i);
      RowUpdates(s, i, man.members[k], j - 1);
      PreviousIn(man, k, j - 1);
      WaitsFor(s, man, i, done, Previous(man.members[k], j - 1));
      PlayUpdate(s, t, man, root, base, done, k, j - 1, i);
    }
  }

  lemma BaseGrown(man: Manifest, base: Tree, root: Uuid)
    requires Apart(man, base, root)
    ensures Grown(base, man, base, {}) && Closed(man, {})
  {
    forall o
      ensures At(base, o) == Slot(man, base, {}, o)
    {
      var k := Find(man.members, o);
      if k < |man.members| {
        ApartAt(man, base, root, k);
      }
    }
    hide Slot, At, Apart;
  }

  lemma SentLast(s: State, man: Manifest, order: seq<nat>)
    requires order != [] && Allowed(s, man, order)
    ensures var init, i := order[..|order| - 1], order[|order| - 1];
            && Allowed(s, man, init) && MayFollow(s, man, i, OpsIn(s, init)) && i < |s.rows|
            && Sent(s, order) == Sent(s, init) + [s.rows[i].m] && OpsIn(s, order) == OpsIn(s, init) + {s.rows[i].m.op}
  {
  }

  lemma PlayLast(t: Tree, ms: seq<Mutation>, m: Mutation)
    ensures Play(t, ms + [m]) == if Play(t, ms) == None then None else Apply(Play(t, ms).value, m)
  {
    assert (ms + [m])[..|ms + [m]| - 1] == ms;
    hide Apply;
  }

  /** Sent in any allowed order, the queued operations are all played, and the tree grows as their slots say. */
  lemma {:induction false} PlaySent(s: State, man: Manifest, root: Uuid, base: Tree, order: seq<nat>)
    requires WellFormed(s) && TopologyOk(s, man, root) && Apart(man, base, root) && Allowed(s, man, order)
    ensures Closed(man, OpsIn(s, order))
    ensures var t := Play(base, Sent(s, order)); t.Some? && Grown(t.value, man, base, OpsIn(s, order))
  {
    if order == [] {
      BaseGrown(man, base, root);
    } else {
      var init, i := order[..|order| - 1], order[|order| - 1];
      hide *;
      SentLast(s, man, order);
      PlaySent(s, man, root, base, init);
      PlayLast(base, Sent(s, init), s.rows[i].m);
      PlayOne(s, Play(base, Sent(s, init)).value, man, root, base, OpsIn(s, init), i);
      SendingCloses(s, man, root, i, OpsIn(s, init));
    }
  }

  /** Every queued operation of the manifest is sent. */
  ghost predicate AllSent(s: State, man: Manifest, order: seq<nat>) {
    forall i :: 0 <= i < |s.rows| && InManifest(s, man, i) ==> s.rows[i].m.op in OpsIn(s, order)
  }

  lemma SentAt(s: State, man: Manifest, order: seq<nat>, i: nat)
    requires AllSent(s, man, order) && i < |s.rows| && OldOpOf(man, s.rows[i].m.op)
    ensures s.rows[i].m.op in OpsIn(s, order)
  {
    assert InManifest(s, man, i);
    hide OpsIn, OldOpOf;
  }

  lemma MemberSent(s: State, man: Manifest, root: Uuid, order: seq<nat>, k: nat)
    requires TopologyOk(s, man, root) && AllSent(s, man, order) && k < |man.members|
    ensures man.members[k].oldOp in OpsIn(s, order)
    ensures HashAfter(man.members[k], OpsIn(s, order), |man.members[k].chain|) == FinalOf(man.members[k])
  {
    var m, done := man.members[k], OpsIn(s, order);
    var i := IndexOf(s, m.oldOp, |s.rows|);
    hide *;
    QueuedMember(s, man, root, k);
    QueuedRows(s, man, root, m);
    PreviousIn(man, k, 0);
    MemberInManifest(man, k, m.oldOp);
    SentAt(s, man, order, i);
    if m.chain != [] {
      LastUpdate(s, m);
      PreviousIn(man, k, |m.chain|);
      PreviousLast(m);
      SentAt(s, man, order, IndexOf(s, m.chain[|m.chain| - 1].op, |s.rows|));
    }
    HashFinal(m, done);
  }

  lemma PreviousLast(m: Member)
    requires m.chain != []
    ensures Previous(m, |m.chain|) == m.chain[|m.chain| - 1].op
  {
  }

  lemma LastUpdate(s: State, m: Member)
    requires m.chain != [] && forall k :: 0 <= k < |m.chain| ==> UpdateRow(s, IndexOf(s, m.chain[k].op, |s.rows|), m, k)
    ensures var i := IndexOf(s, m.chain[|m.chain| - 1].op, |s.rows|);
            i < |s.rows| && s.rows[i].m.op == m.chain[|m.chain| - 1].op
  {
    assert UpdateRow(s, IndexOf(s, m.chain[|m.chain| - 1].op, |s.rows|), m, |m.chain| - 1);
    hide IndexOf;
  }

  lemma HashFinal(m: Member, done: set<Uuid>)
    requires m.chain != [] ==> m.chain[|m.chain| - 1].op in done
    ensures HashAfter(m, done, |m.chain|) == FinalOf(m)
  {
  }

  lemma FinalIs(s: State, man: Manifest, root: Uuid, k: nat)
    requires TopologyOk(s, man, root) && k < |man.members|
    ensures FinalOf(man.members[k]) == man.members[k].finalBlob
  {
    var m := man.members[k];
    hide *;
    QueuedMember(s, man, root, k);
    ShapeOf(man, k);
    QueuedCreate(s, man, root, m);
    FolderBlob(m);
    FolderFinal(m);
  }

  lemma FolderFinal(m: Member)
    requires MemberShape(m)
    ensures m.otype == Folder ==> FinalOf(m) == m.finalBlob
  {
    hide ValidComponent, ValidObjectId, ValidOperationId, ValidRelative;
  }

  lemma TargetMember(man: Manifest, under: Uuid, base: Tree, k: nat, o: Uuid)
    requires k == Find(man.members, o)
    ensures k < |man.members| ==>
              Target(man, under, base, o) == Some(Hung(man, under, man.members[k], man.members[k].finalBlob))
    ensures k == |man.members| ==> Target(man, under, base, o) == At(base, o)
  {
  }

  lemma HungAtRoot(man: Manifest, root: Uuid, m: Member, blob: Hash)
    requires m.depth == 1 ==> m.parent == root
    ensures Hung(man, root, m, blob) == Node(m.otype, m.parent, m.name, blob)
  {
  }

  lemma HoldsIf(t: Tree, man: Manifest, under: Uuid, base: Tree)
    requires forall o :: At(t, o) == Target(man, under, base, o)
    ensures Holds(t, man, under, base)
  {
  }

  /** Sent in whatever order their dependencies allow, the queued operations build the manifest's tree below the refused
      folder, with the last bytes of every note. */
  lemma QueueBuilds(s: State, man: Manifest, root: Uuid, base: Tree, order: seq<nat>)
    requires WellFormed(s) && TopologyOk(s, man, root) && Apart(man, base, root) && Allowed(s, man, order)
             && AllSent(s, man, order)
    ensures var t := Play(base, Sent(s, order)); t.Some? && Holds(t.value, man, root, base)
  {
    hide *;
    PlaySent(s, man, root, base, order);
    var t, done := Play(base, Sent(s, order)).value, OpsIn(s, order);
    forall o
      ensures At(t, o) == Target(man, root, base, o)
    {
      var k := Find(man.members, o);
      TargetMember(man, root, base, k, o);
      SlotIn(t, man, base, done, o);
      if k < |man.members| {
        QueuedMember(s, man, root, k);
        QueuedCreate(s, man, root, man.members[k]);
        SlotOf(man, base, done, k);
        MemberSent(s, man, root, order, k);
        FinalIs(s, man, root, k);
        HungAtRoot(man, root, man.members[k], man.members[k].finalBlob);
      } else {
        SlotElsewhere(man, base, done, o);
      }
    }
    HoldsIf(t, man, root, base);
  }

  // ---------------------------------------------------------------- the queue's own order is one of them

  /** The manifest's rows among the first n, in sequence order. */
  function ManifestRows(s: State, man: Manifest, n: nat): seq<nat> {
    if n == 0 then []
    else if InManifest(s, man, n - 1) then ManifestRows(s, man, n - 1) + [n - 1]
    else ManifestRows(s, man, n - 1)
  }

  lemma {:induction false} RowsSent(s: State, man: Manifest, n: nat, op: Uuid)
    requires n <= |s.rows|
    ensures op in OpsIn(s, ManifestRows(s, man, n))
            <==> exists i :: 0 <= i < n && InManifest(s, man, i) && s.rows[i].m.op == op
  {
    if n > 0 {
      var init := ManifestRows(s, man, n - 1);
      RowsSent(s, man, n - 1, op);
      NextRow(s, man, n);
      hide *;
      if InManifest(s, man, n - 1) {
        OpsInLast(s, init, n - 1);
      }
    } else {
      assert ManifestRows(s, man, n) == [];
    }
  }

  lemma NextRow(s: State, man: Manifest, n: nat)
    requires n > 0
    ensures ManifestRows(s, man, n)
            == if InManifest(s, man, n - 1) then ManifestRows(s, man, n - 1) + [n - 1] else ManifestRows(s, man, n - 1)
  {
  }

  lemma OpsInLast(s: State, order: seq<nat>, i: nat)
    requires i < |s.rows|
    ensures OpsIn(s, order + [i]) == OpsIn(s, order) + {s.rows[i].m.op}
  {
    assert (order + [i])[..|order + [i]| - 1] == order;
  }

  lemma AllowedLast(s: State, man: Manifest, order: seq<nat>, i: nat)
    requires Allowed(s, man, order) && MayFollow(s, man, i, OpsIn(s, order))
    ensures Allowed(s, man, order + [i])
  {
    assert (order + [i])[..|order + [i]| - 1] == order;
    hide MayFollow, OpsIn;
  }

  lemma EarlierRow(s: State, man: Manifest, i: nat, d: Uuid)
    requires WellFormed(s) && i < |s.rows| && d in Deps(s.rows[i].m) && OldOpOf(man, d)
    ensures exists j :: 0 <= j < i && InManifest(s, man, j) && s.rows[j].m.op == d
  {
    assert HasOp(s, i, d);
    var j :| 0 <= j < i && s.rows[j].m.op == d;
    hide OldOpOf, Deps;
    assert InManifest(s, man, j);
  }

  lemma OpNotBefore(s: State, i: nat)
    requires WellFormed(s) && i < |s.rows|
    ensures forall j :: 0 <= j < i ==> s.rows[j].m.op != s.rows[i].m.op
  {
  }

  /** Sending the manifest's rows in sequence order is allowed, and sends them all. */
  lemma {:induction false} QueueOrder(s: State, man: Manifest, n: nat)
    requires WellFormed(s) && n <= |s.rows|
    ensures Allowed(s, man, ManifestRows(s, man, n))
    ensures n == |s.rows| ==> AllSent(s, man, ManifestRows(s, man, n))
  {
    if n > 0 {
      var init := ManifestRows(s, man, n - 1);
      QueueOrder(s, man, n - 1);
      hide *;
      NextRow(s, man, n);
      if InManifest(s, man, n - 1) {
        NextMayFollow(s, man, n - 1);
        AllowedLast(s, man, init, n - 1);
      }
    }
    if n == |s.rows| {
      hide *;
      AllRowsSent(s, man);
    }
  }

  lemma NextMayFollow(s: State, man: Manifest, i: nat)
    requires WellFormed(s) && InManifest(s, man, i)
    ensures MayFollow(s, man, i, OpsIn(s, ManifestRows(s, man, i)))
  {
    var done := OpsIn(s, ManifestRows(s, man, i));
    assert i < |s.rows|;
    hide *;
    RowsSent(s, man, i, s.rows[i].m.op);
    OpNotBefore(s, i);
    forall d | d in Deps(s.rows[i].m) && OldOpOf(man, d)
      ensures d in done
    {
      EarlierRow(s, man, i, d);
      RowsSent(s, man, i, d);
    }
    MayFollowIf(s, man, i, done);
  }

  lemma MayFollowIf(s: State, man: Manifest, i: nat, done: set<Uuid>)
    requires InManifest(s, man, i) && i < |s.rows| && s.rows[i].m.op !in done
    requires forall d :: d in Deps(s.rows[i].m) && OldOpOf(man, d) ==> d in done
    ensures MayFollow(s, man, i, done)
  {
  }

  lemma AllRowsSent(s: State, man: Manifest)
    ensures AllSent(s, man, ManifestRows(s, man, |s.rows|))
  {
    forall i | 0 <= i < |s.rows| && InManifest(s, man, i)
      ensures s.rows[i].m.op in OpsIn(s, ManifestRows(s, man, |s.rows|))
    {
      RowsSent(s, man, |s.rows|, s.rows[i].m.op);
    }
    hide InManifest, OpsIn, ManifestRows;
  }

  // ---------------------------------------------------------------- the replacements

  /** What is there once the root and the first n replacements are created. */
  function NewSlot(man: Manifest, recovered: Uuid, base: Tree, n: nat, o: Uuid): Option<Node> {
    var k := Find(man.members, o);
    if k < |man.members| then
      if k < n then Some(Hung(man, recovered, man.members[k], man.members[k].finalBlob)) else None
    else At(base, o)
  }

  ghost predicate NewGrown(t: Tree, man: Manifest, recovered: Uuid, base: Tree, n: nat) {
    forall o :: At(t, o) == NewSlot(man, recovered, base, n, o)
  }

  function WithRecovered(base: Tree, recovered: Uuid, rootName: string): Tree {
    base[recovered := Node(Folder, CONFLICT_RECOVERED, rootName, [])]
  }

  /** Where the replacements start: the recovered-conflicts folder is there, the recovered root and the members are
      not. */
  ghost predicate Cleared(man: Manifest, base: Tree, recovered: Uuid) {
    && FolderAt(base, CONFLICT_RECOVERED) && recovered !in base
    && forall k :: 0 <= k < |man.members| ==> man.members[k].obj !in base && man.members[k].obj != recovered
  }

  lemma ClearedApart(man: Manifest, base: Tree, recovered: Uuid, rootName: string)
    requires Cleared(man, base, recovered)
    ensures Apart(man, WithRecovered(base, recovered, rootName), recovered)
  {
  }

  lemma RootPlayed(man: Manifest, base: Tree, recovered: Uuid, rootName: string)
    requires Cleared(man, base, recovered)
    ensures Apply(base, RootCreate(man, recovered, rootName)) == Some(WithRecovered(base, recovered, rootName))
  {
  }

  lemma NewGrownStart(man: Manifest, recovered: Uuid, base: Tree)
    requires Apart(man, base, recovered)
    ensures NewGrown(base, man, recovered, base, 0)
  {
    forall o
      ensures At(base, o) == NewSlot(man, recovered, base, 0, o)
    {
      var k := Find(man.members, o);
      if k < |man.members| {
        ApartAt(man, base, recovered, k);
      }
    }
    hide NewSlot, At, Apart;
  }

  lemma NewSlotIs(man: Manifest, recovered: Uuid, base: Tree, n: nat, o: Uuid, k: nat)
    requires Find(man.members, o) == k
    ensures k < |man.members| ==>
              NewSlot(man, recovered, base, n, o)
                == (if k < n then Some(Hung(man, recovered, man.members[k], man.members[k].finalBlob)) else None)
    ensures k == |man.members| ==> NewSlot(man, recovered, base, n, o) == At(base, o)
  {
  }

  lemma NewGrownAt(t: Tree, man: Manifest, recovered: Uuid, base: Tree, n: nat, o: Uuid)
    requires NewGrown(t, man, recovered, base, n)
    ensures At(t, o) == NewSlot(man, recovered, base, n, o)
  {
    hide NewSlot;
  }

  lemma NewGrownIf(t: Tree, man: Manifest, recovered: Uuid, base: Tree, n: nat)
    requires forall o :: At(t, o) == NewSlot(man, recovered, base, n, o)
    ensures NewGrown(t, man, recovered, base, n)
  {
  }

  /** The parent of the n-th replacement was created before it. */
  lemma NewParentThere(t: Tree, man: Manifest, recovered: Uuid, base: Tree, n: nat)
    requires ManifestShape(man) && ParentsFirst(man) && n < |man.members| && Apart(man, base, recovered)
             && NewGrown(t, man, recovered, base, n)
    ensures FolderAt(t, NewParent(man, recovered, man.members[n]))
  {
    var m := man.members[n];
    hide *;
    NewParentIs(man, recovered, m);
    NewGrownAt(t, man, recovered, base, n, NewParent(man, recovered, m));
    FolderAtIs(t, NewParent(man, recovered, m));
    if m.depth == 1 {
      UnderIsBase(man, base, recovered);
      NewSlotIs(man, recovered, base, n, recovered, |man.members|);
      FolderAtIs(base, recovered);
    } else {
      ShapeOf(man, n);
      DepthPositive(m);
      ParentBefore(man, n);
      var j := ParentOf(man, n);
      NewSlotIs(man, recovered, base, n, m.parent, j);
      HungType(man, recovered, man.members[j]);
    }
  }

  lemma NewParentIs(man: Manifest, recovered: Uuid, m: Member)
    ensures NewParent(man, recovered, m) == if m.depth == 1 then recovered else m.parent
  {
  }

  lemma HungType(man: Manifest, under: Uuid, m: Member)
    ensures Hung(man, under, m, m.finalBlob).otype == m.otype
  {
  }

  lemma ReplacementIs(man: Manifest, recovered: Uuid, m: Member)
    requires MemberShape(m)
    ensures var c := Replacement(man, recovered, m);
            && c.kind == Create && c.obj == m.obj && c.parent == Some(NewParent(man, recovered, m))
            && Node(c.otype, NewParent(man, recovered, m), c.name, c.blob) == Hung(man, recovered, m, m.finalBlob)
  {
    hide ValidComponent, ValidObjectId, ValidOperationId, ValidRelative, NewParent, NewDependency;
  }

  lemma ReplacementPlayed(t: Tree, man: Manifest, recovered: Uuid, base: Tree, n: nat)
    requires ManifestShape(man) && ParentsFirst(man) && n < |man.members| && Apart(man, base, recovered)
             && NewGrown(t, man, recovered, base, n)
    ensures var u := Apply(t, Replacement(man, recovered, man.members[n]));
            u.Some? && NewGrown(u.value, man, recovered, base, n + 1)
  {
    var m := man.members[n];
    var c, node := Replacement(man, recovered, m), Hung(man, recovered, m, m.finalBlob);
    hide *;
    ShapeOf(man, n);
    FindMember(man, n);
    ReplacementIs(man, recovered, m);
    NewParentThere(t, man, recovered, base, n);
    NewGrownAt(t, man, recovered, base, n, m.obj);
    NewSlotIs(man, recovered, base, n, m.obj, n);
    AtNone(t, m.obj);
    ApplyCreate(t, c, NewParent(man, recovered, m));
    var u := t[m.obj := node];
    forall o
      ensures At(u, o) == NewSlot(man, recovered, base, n + 1, o)
    {
      AtUpdated(t, m.obj, node, o);
      NewGrownAt(t, man, recovered, base, n, o);
      SlotNext(man, recovered, base, n, o);
    }
    NewGrownIf(u, man, recovered, base, n + 1);
  }

  /** Only the n-th member's slot changes. */
  lemma SlotNext(man: Manifest, recovered: Uuid, base: Tree, n: nat, o: Uuid)
    requires ManifestShape(man) && n < |man.members|
    ensures var m := man.members[n];
            NewSlot(man, recovered, base, n + 1, o)
            == (if o == m.obj then Some(Hung(man, recovered, m, m.finalBlob)) else NewSlot(man, recovered, base, n, o))
  {
    hide *;
    FindMember(man, n);
    FoundObj(man, o);
    NewSlotIs(man, recovered, base, n, o, Find(man.members, o));
    NewSlotIs(man, recovered, base, n + 1, o, Find(man.members, o));
  }

  lemma FoundObj(man: Manifest, o: Uuid)
    ensures var k := Find(man.members, o); k <= |man.members| && (k < |man.members| ==> man.members[k].obj == o)
  {
  }

  lemma {:induction false} ReplacementsPlayed(man: Manifest, base: Tree, recovered: Uuid, rootName: string, n: nat)
    requires ManifestShape(man) && ParentsFirst(man) && n <= |man.members| && Cleared(man, base, recovered)
    ensures var t := Play(base, Replacements(man, recovered, rootName, n));
            t.Some? && NewGrown(t.value, man, recovered, WithRecovered(base, recovered, rootName), n)
  {
    var start := WithRecovered(base, recovered, rootName);
    hide *;
    ClearedApart(man, base, recovered, rootName);
    ReplacementsSplit(man, recovered, rootName, n);
    if n == 0 {
      PlayLast(base, [], RootCreate(man, recovered, rootName));
      PlayNone(base);
      RootPlayed(man, base, recovered, rootName);
      NewGrownStart(man, recovered, start);
    } else {
      ReplacementsPlayed(man, base, recovered, rootName, n - 1);
      PlayLast(base, Replacements(man, recovered, rootName, n - 1), Replacement(man, recovered, man.members[n - 1]));
      ReplacementPlayed(Play(base, Replacements(man, recovered, rootName, n - 1)).value, man, recovered, start, n - 1);
    }
  }

  lemma PlayNone(t: Tree)
    ensures Play(t, []) == Some(t)
  {
  }

  /** Created in their order, the replacements build the manifest's tree below the recovered root. */
  lemma ReplacementsBuild(man: Manifest, base: Tree, recovered: Uuid, rootName: string)
    requires ManifestShape(man) && ParentsFirst(man) && Cleared(man, base, recovered)
    ensures var t := Play(base, Replacements(man, recovered, rootName, |man.members|));
            t.Some? && Holds(t.value, man, recovered, WithRecovered(base, recovered, rootName))
  {
    hide *;
    var start := WithRecovered(base, recovered, rootName);
    ReplacementsPlayed(man, base, recovered, rootName, |man.members|);
    var t := Play(base, Replacements(man, recovered, rootName, |man.members|)).value;
    forall o
      ensures At(t, o) == Target(man, recovered, start, o)
    {
      FoundObj(man, o);
      NewGrownAt(t, man, recovered, start, |man.members|, o);
      NewSlotIs(man, recovered, start, |man.members|, o, Find(man.members, o));
      TargetMember(man, recovered, start, Find(man.members, o), o);
    }
    HoldsIf(t, man, recovered, start);
  }

  // ---------------------------------------------------------------- the same tree

  /** A node with its parent taken from under one folder to another. */
  function Rehung(n: Option<Node>, from: Uuid, to: Uuid): Option<Node> {
    if n.Some? && n.value.parent == from then Some(n.value.(parent := to)) else n
  }

  /** The queue, drained in any order its dependencies allow, and the replacements build the same tree: every object
      gets the same place, name, kind and final hash, with the recovered root standing for the refused folder; nothing
      else changes. */
  lemma SameTree(s: State, man: Manifest, root: Uuid, recovered: Uuid, rootName: string, base: Tree, order: seq<nat>)
    requires WellFormed(s) && TopologyOk(s, man, root) && ParentsFirst(man)
    requires Apart(man, base, root) && Cleared(man, base, recovered) && Allowed(s, man, order) && AllSent(s, man, order)
    ensures var queued := Play(base, Sent(s, order));
            var replaced := Play(base, Replacements(man, recovered, rootName, |man.members|));
            && queued.Some? && replaced.Some?
            && forall o :: o != recovered ==>
                 At(replaced.value, o) == (if Find(man.members, o) < |man.members| then
                                             Rehung(At(queued.value, o), root, recovered) else At(queued.value, o))
  {
    hide *;
    QueueBuilds(s, man, root, base, order);
    if |man.members| > 0 {
      QueuedMember(s, man, root, 0);
    }
    ShapeOfTopology(s, man, root);
    ReplacementsBuild(man, base, recovered, rootName);
    var queued := Play(base, Sent(s, order)).value;
    var replaced := Play(base, Replacements(man, recovered, rootName, |man.members|)).value;
    forall o | o != recovered
      ensures At(replaced, o) == (if Find(man.members, o) < |man.members| then Rehung(At(queued, o), root, recovered)
                                  else At(queued, o))
    {
      var k := Find(man.members, o);
      FoundObj(man, o);
      HoldsAt(queued, man, root, base, o);
      HoldsAt(replaced, man, recovered, WithRecovered(base, recovered, rootName), o);
      TargetMember(man, root, base, k, o);
      TargetMember(man, recovered, WithRecovered(base, recovered, rootName), k, o);
      if k < |man.members| {
        MemberRehung(s, man, base, root, recovered, k);
      } else {
        AtRecovered(base, recovered, rootName, o);
      }
    }
  }

  lemma ShapeOfTopology(s: State, man: Manifest, root: Uuid)
    requires TopologyOk(s, man, root)
    ensures ManifestShape(man)
  {
    hide ManifestShape, MemberQueued, Complete;
  }

  lemma HoldsAt(t: Tree, man: Manifest, under: Uuid, base: Tree, o: Uuid)
    requires Holds(t, man, under, base)
    ensures At(t, o) == Target(man, under, base, o)
  {
    hide Target;
  }

  lemma AtRecovered(base: Tree, recovered: Uuid, rootName: string, o: Uuid)
    requires o != recovered
    ensures At(WithRecovered(base, recovered, rootName), o) == At(base, o)
  {
  }

  /** Only direct members have the refused folder as their parent. */
  lemma MemberRehung(s: State, man: Manifest, base: Tree, root: Uuid, recovered: Uuid, k: nat)
    requires TopologyOk(s, man, root) && Apart(man, base, root) && k < |man.members|
    ensures var m := man.members[k];
            Some(Hung(man, recovered, m, m.finalBlob)) == Rehung(Some(Hung(man, root, m, m.finalBlob)), root, recovered)
  {
    var m := man.members[k];
    hide *;
    QueuedMember(s, man, root, k);
    QueuedCreate(s, man, root, m);
    NewParentIs(man, root, m);
    NewParentIs(man, recovered, m);
    if m.depth != 1 {
      var j := ParentOf(man, k);
      ApartAt(man, base, root, j);
    }
    RehungIs(man, root, recovered, m);
  }

  lemma RehungIs(man: Manifest, root: Uuid, recovered: Uuid, m: Member)
    requires m.depth == 1 || m.parent != root
    ensures Some(Hung(man, recovered, m, m.finalBlob)) == Rehung(Some(Hung(man, root, m, m.finalBlob)), root, recovered)
  {
  }
}
