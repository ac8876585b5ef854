/** Every operation the walk gathers is one that any valid manifest must hold, so the walk only fails when there is
    none. */
module RecursiveNecessity {
  import opened Ids
  import opened Naming
  import opened Optional
  import opened Outbox
  import opened RecursiveRecovery
  import opened RecursiveReplacement
  import opened RecursiveTree
  import opened RecursiveWalk

  /** A manifest that validates for this refused folder. */
  ghost predicate ValidFor(s: State, rootOp: Uuid, root: Uuid, man: Manifest) {
    man.operation == rootOp && TopologyOk(s, man, root)
  }

  ghost predicate NoManifest(s: State, rootOp: Uuid, root: Uuid) {
    forall man :: !ValidFor(s, rootOp, root, man)
  }

  predicate CreateOf(man: Manifest, op: Uuid) {
    exists j :: 0 <= j < |man.members| && man.members[j].oldOp == op
  }

  /** The same create with as many updates behind it. */
  predicate Twin(a: Member, b: Member) {
    a.oldOp == b.oldOp && |a.chain| == |b.chain|
  }

  predicate HasTwin(man: Manifest, m: Member) {
    exists j :: 0 <= j < |man.members| && Twin(man.members[j], m)
  }

  ghost predicate Required(s: State, rootOp: Uuid, root: Uuid, m: Member) {
    forall man :: ValidFor(s, rootOp, root, man) ==> HasTwin(man, m)
  }

  ghost predicate AllRequired(s: State, rootOp: Uuid, root: Uuid, ms: seq<Member>) {
    forall m :: m in ms ==> Required(s, rootOp, root, m)
  }

  /** The operation of the folder being walked: the refused one, or the create of a folder any valid manifest holds. */
  predicate WalkedFolder(s: State, rootOp: Uuid, root: Uuid, man: Manifest, parentOp: Uuid, parent: Uuid) {
    || (parentOp == rootOp && parent == root)
    || (CreateOf(man, parentOp) && Position(s, parentOp) < |s.rows|
        && s.rows[Position(s, parentOp)].m.obj == parent && s.rows[Position(s, parentOp)].m.otype == Folder)
  }

  // ---------------------------------------------------------------- what a valid manifest says of one row

  lemma ValidParts(s: State, rootOp: Uuid, root: Uuid, man: Manifest)
    requires ValidFor(s, rootOp, root, man)
    ensures man.operation == rootOp && TopologyOk(s, man, root) && ManifestShape(man)
  {
    hide ManifestShape, MemberQueued, Complete;
  }

  lemma OldOpNotRoot(man: Manifest, j: nat, op: Uuid)
    requires ManifestShape(man) && j < |man.members|
             && (op == man.members[j].oldOp || op in ChainOps(man.members[j].chain))
    ensures op != man.operation
  {
    hide *;
    ShapeOf(man, j);
    SeenRoot(man, j);
    OldOpsAreOps(man.members[j], op);
    NotSeen(man.members[j], SeenOps(man, j), op);
  }

  lemma OldOpsAreOps(m: Member, op: Uuid)
    requires op == m.oldOp || op in ChainOps(m.chain)
    ensures op in OpsOf(m)
  {
  }

  lemma PreviousOld(m: Member, k: nat)
    requires k <= |m.chain|
    ensures Previous(m, k) == m.oldOp || Previous(m, k) in ChainOps(m.chain)
  {
    if k > 0 {
      ChainHas(m.chain, m.chain[k - 1].op);
    }
  }

  lemma OldOpAt(man: Manifest, op: Uuid) returns (j: nat, n: nat)
    requires OldOpOf(man, op)
    ensures j < |man.members| && n <= |man.members[j].chain|
    ensures op == if n == 0 then man.members[j].oldOp else man.members[j].chain[n - 1].op
  {
    j :| 0 <= j < |man.members| && (man.members[j].oldOp == op || op in ChainOps(man.members[j].chain));
    if man.members[j].oldOp == op {
      n := 0;
    } else {
      ChainHas(man.members[j].chain, op);
      var x :| 0 <= x < |man.members[j].chain| && man.members[j].chain[x].op == op;
      n := x + 1;
    }
  }

  lemma CompleteRow(s: State, man: Manifest, root: Uuid, i: nat, d: Uuid)
    requires TopologyOk(s, man, root) && i < |s.rows| && d in Deps(s.rows[i].m)
             && (d == man.operation || OldOpOf(man, d))
    ensures OldOpOf(man, s.rows[i].m.op)
  {
    hide ManifestShape, MemberQueued, OldOpOf, Deps;
  }

  lemma CreateDeps(s: State, i: nat, m: Member, d: Uuid)
    requires CreateRow(s, i, m, d)
    ensures i < |s.rows| && Deps(s.rows[i].m) == {d} && s.rows[i].m.obj == m.obj && s.rows[i].m.otype == m.otype
            && s.rows[i].m.op == m.oldOp
    ensures s.rows[i].m.kind == Create && s.rows[i].status == Pending && s.rows[i].m.parent == Some(m.parent)
            && s.rows[i].m.name == m.name
  {
    hide Deps;
  }

  lemma UpdateDeps(s: State, i: nat, m: Member, k: nat)
    requires k < |m.chain| && UpdateRow(s, i, m, k)
    ensures i < |s.rows| && Deps(s.rows[i].m) == {Previous(m, k)} && s.rows[i].m.obj == m.obj
            && s.rows[i].m.otype == Note
    ensures s.rows[i].m.kind == Update && s.rows[i].status == Pending && s.rows[i].m.op == m.chain[k].op
  {
    hide Deps;
  }

  /** The folder a member's create waits for. */
  lemma DependencyFolder(man: Manifest, root: Uuid, j: nat) returns (x: nat)
    requires ManifestShape(man) && j < |man.members|
    ensures man.members[j].depth == 1 ==> Dependency(man, man.members[j]) == man.operation
    ensures man.members[j].depth != 1 ==>
              x < |man.members| && Dependency(man, man.members[j]) == man.members[x].oldOp
                  && man.members[x].obj == man.members[j].parent
              && man.members[x].otype == Folder
  {
    var m := man.members[j];
    hide *;
    DirectOrNot(man, m);
    if m.depth == 1 {
      x := 0;
    } else {
      x := ParentOf(man, j);
      DependencyOf(man, m);
    }
  }

  lemma DirectOrNot(man: Manifest, m: Member)
    ensures m.depth == 1 ==> Dependency(man, m) == man.operation
  {
    hide Find;
  }

  lemma FolderChain(m: Member)
    requires MemberShape(m)
    ensures m.otype == Folder ==> m.chain == []
    ensures ValidObjectId(m.obj) && ValidComponent(m.name)
  {
    hide ValidObjectId, ValidOperationId, ValidComponent, ValidRelative;
  }

  lemma WalkedNotChain(s: State, rootOp: Uuid, root: Uuid, man: Manifest, parentOp: Uuid, parent: Uuid, j: nat, k: nat)
    requires ValidFor(s, rootOp, root, man) && WellFormed(s) && WalkedFolder(s, rootOp, root, man, parentOp, parent)
    requires j < |man.members| && k < |man.members[j].chain|
    ensures parentOp != Previous(man.members[j], k)
  {
    var m := man.members[j];
    hide *;
    ValidParts(s, rootOp, root, man);
    PreviousOld(m, k);
    OldOpNotRoot(man, j, Previous(m, k));
    ShapeOf(man, j);
    FolderChain(m);
    if parentOp != rootOp {
      var x := WalkedCreate(s, rootOp, root, man, parentOp, parent);
      CreateKind(s, man, root, x, Position(s, parentOp));
      OldOpIn(man.members[x]);
      NotOpOf(man, j, x, parentOp);
      if parentOp == Previous(m, k) {
        OldOpsAreOps(m, parentOp);
      }
    }
  }

  lemma NotOpOf(man: Manifest, j: nat, x: nat, op: Uuid)
    requires ManifestShape(man) && j < |man.members| && x < |man.members| && j != x && op in OpsOf(man.members[x])
    ensures op !in OpsOf(man.members[j])
  {
    hide *;
    if op in OpsOf(man.members[j]) {
      OpOfOne(man, j, x, op);
    }
  }

  lemma WalkedCreate(s: State, rootOp: Uuid, root: Uuid, man: Manifest, parentOp: Uuid, parent: Uuid) returns (x: nat)
    requires WalkedFolder(s, rootOp, root, man, parentOp, parent) && parentOp != rootOp
    ensures x < |man.members| && man.members[x].oldOp == parentOp && Position(s, parentOp) < |s.rows|
    ensures s.rows[Position(s, parentOp)].m.obj == parent && s.rows[Position(s, parentOp)].m.otype == Folder
    ensures s.rows[Position(s, parentOp)].m.op == parentOp
  {
    x :| 0 <= x < |man.members| && man.members[x].oldOp == parentOp;
  }

  /** A member's create row has the member's kind and object. */
  lemma CreateKind(s: State, man: Manifest, root: Uuid, x: nat, i: nat)
    requires WellFormed(s) && TopologyOk(s, man, root) && x < |man.members| && i < |s.rows|
             && s.rows[i].m.op == man.members[x].oldOp
    ensures s.rows[i].m.obj == man.members[x].obj && s.rows[i].m.otype == man.members[x].otype
  {
    hide *;
    RowOfCreate(s, man, root, x, i);
    CreateDeps(s, i, man.members[x], Dependency(man, man.members[x]));
  }

  lemma RowOfCreate(s: State, man: Manifest, root: Uuid, x: nat, i: nat)
    requires WellFormed(s) && TopologyOk(s, man, root) && x < |man.members| && i < |s.rows|
             && s.rows[i].m.op == man.members[x].oldOp
    ensures CreateRow(s, i, man.members[x], Dependency(man, man.members[x]))
    ensures man.members[x].depth == 1 ==> man.members[x].parent == root
  {
    hide *;
    RecursiveTree.CreateOf(s, man, root, x, i);
  }

  /** Whatever waits for a walked folder is, in any valid manifest, the create of a member below it. */
  lemma ChildRequired(s: State, rootOp: Uuid, root: Uuid, man: Manifest, parentOp: Uuid, parent: Uuid, i: nat)
    returns (j: nat)
    requires WellFormed(s) && ValidFor(s, rootOp, root, man) && WalkedFolder(s, rootOp, root, man, parentOp, parent)
    requires i < |s.rows| && parentOp in Deps(s.rows[i].m)
    ensures j < |man.members| && man.members[j].oldOp == s.rows[i].m.op && CreateRow(s, i, man.members[j], parentOp)
    ensures man.members[j].parent == parent && MemberShape(man.members[j])
  {
    hide *;
    ValidParts(s, rootOp, root, man);
    WalkedOp(s, rootOp, root, man, parentOp, parent);
    CompleteRow(s, man, root, i, parentOp);
    var n;
    j, n := OldOpAt(man, s.rows[i].m.op);
    if n > 0 {
      UpdateOf(s, man, root, j, n - 1, i);
      UpdateDeps(s, i, man.members[j], n - 1);
      WalkedNotChain(s, rootOp, root, man, parentOp, parent, j, n - 1);
      assert false;
    }
    RowOfCreate(s, man, root, j, i);
    CreateDeps(s, i, man.members[j], Dependency(man, man.members[j]));
    ShapeOf(man, j);
    ChildParent(s, rootOp, root, man, parentOp, parent, j);
  }

  lemma WalkedOp(s: State, rootOp: Uuid, root: Uuid, man: Manifest, parentOp: Uuid, parent: Uuid)
    requires WalkedFolder(s, rootOp, root, man, parentOp, parent)
    ensures parentOp == rootOp || OldOpOf(man, parentOp)
  {
    hide ChainOps;
  }

  lemma ChildParent(s: State, rootOp: Uuid, root: Uuid, man: Manifest, parentOp: Uuid, parent: Uuid, j: nat)
    requires WellFormed(s) && ValidFor(s, rootOp, root, man) && WalkedFolder(s, rootOp, root, man, parentOp, parent)
    requires j < |man.members| && Dependency(man, man.members[j]) == parentOp
             && (man.members[j].depth == 1 ==> man.members[j].parent == root)
    ensures man.members[j].parent == parent
  {
    hide *;
    ValidParts(s, rootOp, root, man);
    var x := DependencyFolder(man, root, j);
    if man.members[j].depth == 1 {
      if parentOp == rootOp {
        RootWalked(s, rootOp, root, man, parentOp, parent);
      }
    } else {
      OldOpNotRoot(man, x, parentOp);
      var y := WalkedCreate(s, rootOp, root, man, parentOp, parent);
      CreateKind(s, man, root, x, Position(s, parentOp));
    }
  }

  lemma RootWalked(s: State, rootOp: Uuid, root: Uuid, man: Manifest, parentOp: Uuid, parent: Uuid)
    requires ValidFor(s, rootOp, root, man) && WalkedFolder(s, rootOp, root, man, parentOp, parent)
             && parentOp == rootOp
    ensures parent == root
  {
    hide *;
    ValidParts(s, rootOp, root, man);
    if CreateOf(man, parentOp) {
      var y := CreateIndex(man, parentOp);
      OldOpNotRoot(man, y, parentOp);
      assert false;
    }
    WalkedRoot(s, rootOp, root, man, parentOp, parent);
  }

  lemma CreateIndex(man: Manifest, op: Uuid) returns (y: nat)
    requires CreateOf(man, op)
    ensures y < |man.members| && man.members[y].oldOp == op
  {
    y :| 0 <= y < |man.members| && man.members[y].oldOp == op;
  }

  lemma WalkedRoot(s: State, rootOp: Uuid, root: Uuid, man: Manifest, parentOp: Uuid, parent: Uuid)
    requires WalkedFolder(s, rootOp, root, man, parentOp, parent) && !CreateOf(man, parentOp)
    ensures parentOp == rootOp && parent == root
  {
    hide CreateOf, Position;
  }

  // ---------------------------------------------------------------- the checks of the walk

  ghost predicate AllWalked(s: State, rootOp: Uuid, root: Uuid, parentOp: Uuid, parent: Uuid) {
    forall man :: ValidFor(s, rootOp, root, man) ==> WalkedFolder(s, rootOp, root, man, parentOp, parent)
  }

  lemma NoneIf(s: State, rootOp: Uuid, root: Uuid)
    requires forall man :: !ValidFor(s, rootOp, root, man)
    ensures NoManifest(s, rootOp, root)
  {
    hide ValidFor;
  }

  lemma WalkedAtMan(s: State, rootOp: Uuid, root: Uuid, parentOp: Uuid, parent: Uuid, man: Manifest)
    requires AllWalked(s, rootOp, root, parentOp, parent) && ValidFor(s, rootOp, root, man)
    ensures WalkedFolder(s, rootOp, root, man, parentOp, parent)
  {
    hide ValidFor, WalkedFolder;
  }

  lemma RowBlob(s: State, i: nat)
    requires RowsValid(s) && i < |s.rows|
    ensures s.rows[i].m.kind == Create ==> BlobOk(s.rows[i].m)
    ensures s.rows[i].m.kind == Update ==> |s.rows[i].m.blob| == HASH_SIZE
  {
    assert ValidMutation(s.rows[i].m);
    hide ValidOperationId, ValidObjectId, ValidComponent, Deps;
  }

  /** A row that fails the walk's tests rules every manifest out. */
  lemma ChildFails(s: State, rootOp: Uuid, root: Uuid, parentOp: Uuid, parent: Uuid, i: nat)
    requires WellFormed(s) && RowsValid(s) && AllWalked(s, rootOp, root, parentOp, parent) && i < |s.rows|
             && parentOp in Deps(s.rows[i].m)
    requires !ChildOk(s, i, parent) || !BlobOk(s.rows[i].m) || !ValidObjectId(s.rows[i].m.obj)
    ensures NoManifest(s, rootOp, root)
  {
    hide *;
    forall man
      ensures !ValidFor(s, rootOp, root, man)
    {
      if ValidFor(s, rootOp, root, man) {
        WalkedAtMan(s, rootOp, root, parentOp, parent, man);
        var j := ChildRequired(s, rootOp, root, man, parentOp, parent, i);
        CreateDeps(s, i, man.members[j], parentOp);
        FolderChain(man.members[j]);
        RowBlob(s, i);
        ChildOkIf(s, i, parent, parentOp);
      }
    }
    NoneIf(s, rootOp, root);
  }

  lemma ChildOkIf(s: State, i: nat, parent: Uuid, d: Uuid)
    requires i < |s.rows| && Deps(s.rows[i].m) == {d} && s.rows[i].status == Pending && s.rows[i].m.kind == Create
    requires s.rows[i].m.parent == Some(parent) && ValidComponent(s.rows[i].m.name)
    ensures ChildOk(s, i, parent)
  {
    hide ValidComponent, Deps;
  }

  lemma RequiredAt(s: State, rootOp: Uuid, root: Uuid, m: Member, man: Manifest) returns (j: nat)
    requires Required(s, rootOp, root, m) && ValidFor(s, rootOp, root, man)
    ensures j < |man.members| && man.members[j].oldOp == m.oldOp && |man.members[j].chain| == |m.chain|
  {
    hide ValidFor;
    j :| 0 <= j < |man.members| && Twin(man.members[j], m);
  }

  /** An object gathered before cannot be created by another row. */
  lemma SeenFails(s: State, rootOp: Uuid, root: Uuid, parentOp: Uuid, parent: Uuid, i: nat, x: Member, d: Uuid)
    requires WellFormed(s) && AllWalked(s, rootOp, root, parentOp, parent) && i < |s.rows|
             && parentOp in Deps(s.rows[i].m)
    requires Required(s, rootOp, root, x) && CreatedBy(s, x, d) && x.obj == s.rows[i].m.obj && x.oldOp != s.rows[i].m.op
    ensures NoManifest(s, rootOp, root)
  {
    hide *;
    forall man
      ensures !ValidFor(s, rootOp, root, man)
    {
      if ValidFor(s, rootOp, root, man) {
        ValidParts(s, rootOp, root, man);
        WalkedAtMan(s, rootOp, root, parentOp, parent, man);
        var j := ChildRequired(s, rootOp, root, man, parentOp, parent, i);
        CreateDeps(s, i, man.members[j], parentOp);
        var k := RequiredAt(s, rootOp, root, x, man);
        CreatedRowIs(s, x, d);
        CreateKind(s, man, root, k, Position(s, x.oldOp));
        SameObj(man, j, k);
      }
    }
    NoneIf(s, rootOp, root);
  }

  lemma CreatedRowIs(s: State, x: Member, d: Uuid)
    requires CreatedBy(s, x, d)
    ensures var i := Position(s, x.oldOp);
            i < |s.rows| && s.rows[i].m.op == x.oldOp && s.rows[i].m.obj == x.obj && s.rows[i].m.otype == x.otype
                && Deps(s.rows[i].m) == {d}
  {
    hide Position, Deps;
  }

  lemma SameObj(man: Manifest, j: nat, k: nat)
    requires ManifestShape(man) && j < |man.members| && k < |man.members| && man.members[j].obj == man.members[k].obj
    ensures j == k
  {
    hide *;
    FindMember(man, j);
    FindMember(man, k);
  }

  // ---------------------------------------------------------------- chains

  /** Member j of the manifest has the note's create and its updates so far. */
  predicate Follows(a: Member, r: Member) {
    a.oldOp == r.oldOp && |r.chain| <= |a.chain| && forall k :: 0 <= k < |r.chain| ==> a.chain[k].op == r.chain[k].op
  }

  predicate HasFollowed(man: Manifest, r: Member) {
    exists j :: 0 <= j < |man.members| && Follows(man.members[j], r)
  }

  ghost predicate ChainFollowed(s: State, rootOp: Uuid, root: Uuid, r: Member) {
    forall man :: ValidFor(s, rootOp, root, man) ==> HasFollowed(man, r)
  }

  lemma FollowedAt(s: State, rootOp: Uuid, root: Uuid, r: Member, man: Manifest) returns (j: nat)
    requires ChainFollowed(s, rootOp, root, r) && ValidFor(s, rootOp, root, man)
    ensures j < |man.members| && Follows(man.members[j], r)
  {
    hide ValidFor, Follows;
    j :| 0 <= j < |man.members| && Follows(man.members[j], r);
  }

  lemma FollowsPrevious(a: Member, r: Member)
    requires Follows(a, r)
    ensures |r.chain| <= |a.chain| && Previous(a, |r.chain|) == Previous(r, |r.chain|) && a.oldOp == r.oldOp
  {
  }

  lemma PreviousApart(m: Member, seen: set<Uuid>, j: nat, k: nat)
    requires OpsNew(m, seen) && j <= |m.chain| && k <= |m.chain| && j != k
    ensures Previous(m, j) != Previous(m, k)
  {
    hide OpsNew;
    if j > 0 && k > 0 {
      if j < k {
        ChainDistinct(m, seen, j - 1, k - 1);
      } else {
        ChainDistinct(m, seen, k - 1, j - 1);
      }
    } else if j > 0 {
      FirstDistinct(m, seen, j - 1);
    } else {
      FirstDistinct(m, seen, k - 1);
    }
  }

  /** What waits for an operation of a note is the note's next update. */
  lemma DependentIsNext(s: State, rootOp: Uuid, root: Uuid, man: Manifest, j: nat, n: nat, i: nat)
    requires WellFormed(s) && ValidFor(s, rootOp, root, man) && j < |man.members| && n <= |man.members[j].chain|
             && man.members[j].otype == Note
    requires i < |s.rows| && Previous(man.members[j], n) in Deps(s.rows[i].m)
    ensures n < |man.members[j].chain| && UpdateRow(s, i, man.members[j], n)
  {
    hide *;
    ValidParts(s, rootOp, root, man);
    var y, q := BehindNote(s, man, root, j, n, i);
    if q == 0 {
      CreateBehindFolder(s, man, root, j, y, i, Previous(man.members[j], n));
    } else {
      UpdateBehindNote(s, man, root, j, n, y, q - 1, i);
    }
  }

  lemma BehindNote(s: State, man: Manifest, root: Uuid, j: nat, n: nat, i: nat) returns (y: nat, q: nat)
    requires TopologyOk(s, man, root) && ManifestShape(man) && j < |man.members| && n <= |man.members[j].chain|
    requires i < |s.rows| && Previous(man.members[j], n) in Deps(s.rows[i].m)
    ensures Previous(man.members[j], n) in OpsOf(man.members[j]) && Previous(man.members[j], n) != man.operation
    ensures y < |man.members| && q <= |man.members[y].chain|
    ensures q == 0 ==> s.rows[i].m.op == man.members[y].oldOp
    ensures q > 0 ==> s.rows[i].m.op == man.members[y].chain[q - 1].op
  {
    hide *;
    PreviousOld(man.members[j], n);
    OldOpNotRoot(man, j, Previous(man.members[j], n));
    OldOpsAreOps(man.members[j], Previous(man.members[j], n));
    MemberInManifest(man, j, Previous(man.members[j], n));
    CompleteRow(s, man, root, i, Previous(man.members[j], n));
    y, q := OldOpAt(man, s.rows[i].m.op);
  }

  /** No create waits for an operation of a note. */
  lemma CreateBehindFolder(s: State, man: Manifest, root: Uuid, j: nat, y: nat, i: nat, op: Uuid)
    requires WellFormed(s) && TopologyOk(s, man, root) && ManifestShape(man) && j < |man.members| && y < |man.members|
             && i < |s.rows|
    requires s.rows[i].m.op == man.members[y].oldOp && man.members[j].otype == Note && op in OpsOf(man.members[j])
             && op != man.operation
    ensures op !in Deps(s.rows[i].m)
  {
    hide *;
    RowOfCreate(s, man, root, y, i);
    CreateDeps(s, i, man.members[y], Dependency(man, man.members[y]));
    var x := DependencyFolder(man, root, y);
    if man.members[y].depth != 1 {
      OldOpIn(man.members[x]);
      NotOpOf(man, j, x, man.members[x].oldOp);
    }
  }

  lemma UpdateBehindNote(s: State, man: Manifest, root: Uuid, j: nat, n: nat, y: nat, q: nat, i: nat)
    requires WellFormed(s) && TopologyOk(s, man, root) && ManifestShape(man) && j < |man.members| && y < |man.members|
             && i < |s.rows|
    requires n <= |man.members[j].chain| && q < |man.members[y].chain| && s.rows[i].m.op == man.members[y].chain[q].op
    requires Previous(man.members[j], n) in Deps(s.rows[i].m)
    ensures y == j && q == n && UpdateRow(s, i, man.members[j], n)
  {
    hide *;
    UpdateOf(s, man, root, y, q, i);
    UpdateDeps(s, i, man.members[y], q);
    PreviousOld(man.members[j], n);
    OldOpsAreOps(man.members[j], Previous(man.members[j], n));
    PreviousOld(man.members[y], q);
    OldOpsAreOps(man.members[y], Previous(man.members[y], q));
    OpOfOne(man, j, y, Previous(man.members[j], n));
    ShapeOf(man, j);
    if q != n {
      PreviousApart(man.members[j], SeenOps(man, j), q, n);
    }
  }

  lemma NoteInManifest(s: State, rootOp: Uuid, root: Uuid, man: Manifest, j: nat, r: Member, d: Uuid)
    requires WellFormed(s) && ValidFor(s, rootOp, root, man) && j < |man.members| && man.members[j].oldOp == r.oldOp
             && CreatedBy(s, r, d)
    ensures man.members[j].otype == r.otype && man.members[j].obj == r.obj
  {
    hide *;
    ValidParts(s, rootOp, root, man);
    CreatedRowIs(s, r, d);
    CreateKind(s, man, root, j, Position(s, r.oldOp));
  }

  /** The one update behind the last operation extends the chain in every manifest. */
  lemma ChainStays(s: State, rootOp: Uuid, root: Uuid, r: Member, d: Uuid, i: nat)
    requires WellFormed(s) && ChainFollowed(s, rootOp, root, r) && CreatedBy(s, r, d) && r.otype == Note
    requires i < |s.rows| && Previous(r, |r.chain|) in Deps(s.rows[i].m)
    ensures ChainFollowed(s, rootOp, root, Extended(r, s.rows[i].m.op, s.rows[i].m.blob))
  {
    var e := Extended(r, s.rows[i].m.op, s.rows[i].m.blob);
    hide *;
    forall man | ValidFor(s, rootOp, root, man)
      ensures HasFollowed(man, e)
    {
      var j := FollowedAt(s, rootOp, root, r, man);
      FollowsPrevious(man.members[j], r);
      NoteInManifest(s, rootOp, root, man, j, r, d);
      DependentIsNext(s, rootOp, root, man, j, |r.chain|, i);
      UpdateDeps(s, i, man.members[j], |r.chain|);
      FollowsNext(man, j, r, s.rows[i].m.op, s.rows[i].m.blob);
    }
    FollowedIf(s, rootOp, root, e);
  }

  lemma FollowsNext(man: Manifest, j: nat, r: Member, op: Uuid, hash: Hash)
    requires j < |man.members| && Follows(man.members[j], r) && |r.chain| < |man.members[j].chain|
             && man.members[j].chain[|r.chain|].op == op
    ensures HasFollowed(man, Extended(r, op, hash))
  {
    assert Follows(man.members[j], Extended(r, op, hash));
  }

  lemma FollowedIf(s: State, rootOp: Uuid, root: Uuid, r: Member)
    requires forall man :: ValidFor(s, rootOp, root, man) ==> HasFollowed(man, r)
    ensures ChainFollowed(s, rootOp, root, r)
  {
    hide ValidFor, HasFollowed;
  }

  lemma RequiredIf(s: State, rootOp: Uuid, root: Uuid, r: Member)
    requires forall man :: ValidFor(s, rootOp, root, man) ==> HasTwin(man, r)
    ensures Required(s, rootOp, root, r)
  {
    hide ValidFor, HasTwin;
  }

  lemma TwinAt(man: Manifest, j: nat, r: Member)
    requires j < |man.members| && man.members[j].oldOp == r.oldOp && |man.members[j].chain| == |r.chain|
    ensures HasTwin(man, r)
  {
    assert Twin(man.members[j], r);
  }

  lemma UpdateQueued(s: State, man: Manifest, root: Uuid, j: nat, n: nat)
    requires TopologyOk(s, man, root) && j < |man.members| && n < |man.members[j].chain|
    ensures var i := Position(s, man.members[j].chain[n].op);
            i < |s.rows| && Previous(man.members[j], n) in Deps(s.rows[i].m)
  {
    var i := Position(s, man.members[j].chain[n].op);
    hide *;
    QueuedMember(s, man, root, j);
    QueuedRows(s, man, root, man.members[j]);
    PositionIsIndex(s, man.members[j].chain[n].op);
    UpdateDeps(s, i, man.members[j], n);
  }

  lemma PositionIsIndex(s: State, op: Uuid)
    ensures Position(s, op) == IndexOf(s, op, |s.rows|)
  {
    hide IndexOf;
  }

  /** When nothing waits for the last operation, the chain is whole in every manifest. */
  lemma ChainWhole(s: State, rootOp: Uuid, root: Uuid, r: Member)
    requires ChainFollowed(s, rootOp, root, r)
             && forall i :: 0 <= i < |s.rows| ==> Previous(r, |r.chain|) !in Deps(s.rows[i].m)
    ensures Required(s, rootOp, root, r)
  {
    hide *;
    forall man | ValidFor(s, rootOp, root, man)
      ensures HasTwin(man, r)
    {
      ValidParts(s, rootOp, root, man);
      var j := FollowedAt(s, rootOp, root, r, man);
      FollowsPrevious(man.members[j], r);
      if |r.chain| < |man.members[j].chain| {
        UpdateQueued(s, man, root, j, |r.chain|);
      }
      TwinAt(man, j, r);
    }
    RequiredIf(s, rootOp, root, r);
  }

  /** A chain that branches, or goes on with anything but a pending update, rules every manifest out. */
  lemma ChainFails(s: State, rootOp: Uuid, root: Uuid, r: Member, d: Uuid, i: nat, x: nat)
    requires WellFormed(s) && RowsValid(s) && ChainFollowed(s, rootOp, root, r) && CreatedBy(s, r, d) && r.otype == Note
    requires i < |s.rows| && Previous(r, |r.chain|) in Deps(s.rows[i].m) && x < |s.rows|
             && Previous(r, |r.chain|) in Deps(s.rows[x].m)
    requires i != x || !NextUpdate(s, r, i)
    ensures NoManifest(s, rootOp, root)
  {
    hide *;
    forall man
      ensures !ValidFor(s, rootOp, root, man)
    {
      if ValidFor(s, rootOp, root, man) {
        var j := FollowedAt(s, rootOp, root, r, man);
        FollowsPrevious(man.members[j], r);
        NoteInManifest(s, rootOp, root, man, j, r, d);
        DependentIsNext(s, rootOp, root, man, j, |r.chain|, i);
        DependentIsNext(s, rootOp, root, man, j, |r.chain|, x);
        UpdateDeps(s, i, man.members[j], |r.chain|);
        UpdateDeps(s, x, man.members[j], |r.chain|);
        OneRow(s, i, x);
        RowBlob(s, i);
        NextUpdateIf(s, r, i, Previous(r, |r.chain|));
      }
    }
    NoneIf(s, rootOp, root);
  }

  lemma OneRow(s: State, i: nat, x: nat)
    requires WellFormed(s) && i < |s.rows| && x < |s.rows| && s.rows[i].m.op == s.rows[x].m.op
    ensures i == x
  {
    hide Deps;
  }

  lemma NextUpdateIf(s: State, m: Member, i: nat, d: Uuid)
    requires i < |s.rows| && s.rows[i].status == Pending && Deps(s.rows[i].m) == {d} && s.rows[i].m.obj == m.obj
    requires s.rows[i].m.kind == Update && s.rows[i].m.otype == Note && |s.rows[i].m.blob| == HASH_SIZE
    ensures NextUpdate(s, m, i)
  {
    hide Deps;
  }

  // ---------------------------------------------------------------- new members

  /** A gathered child is in every manifest, with no update of it gathered yet. */
  lemma ChildFollowed(s: State, rootOp: Uuid, root: Uuid, parentOp: Uuid, parent: Uuid, i: nat, r: Member)
    requires WellFormed(s) && AllWalked(s, rootOp, root, parentOp, parent) && i < |s.rows|
             && parentOp in Deps(s.rows[i].m)
    requires r.oldOp == s.rows[i].m.op && r.chain == []
    ensures ChainFollowed(s, rootOp, root, r)
    ensures s.rows[i].m.otype == Folder ==> Required(s, rootOp, root, r)
  {
    hide *;
    forall man | ValidFor(s, rootOp, root, man)
      ensures HasFollowed(man, r)
      ensures s.rows[i].m.otype == Folder ==> HasTwin(man, r)
    {
      WalkedAtMan(s, rootOp, root, parentOp, parent, man);
      var j := ChildRequired(s, rootOp, root, man, parentOp, parent, i);
      CreateDeps(s, i, man.members[j], parentOp);
      FolderChain(man.members[j]);
      FollowsFirst(man, j, r);
      if s.rows[i].m.otype == Folder {
        TwinAt(man, j, r);
      }
    }
    FollowedIf(s, rootOp, root, r);
    if s.rows[i].m.otype == Folder {
      RequiredIf(s, rootOp, root, r);
    }
  }

  lemma FollowsFirst(man: Manifest, j: nat, r: Member)
    requires j < |man.members| && man.members[j].oldOp == r.oldOp && r.chain == []
    ensures HasFollowed(man, r)
  {
    assert Follows(man.members[j], r);
  }

  /** The folder an entry stands for is walked in every manifest. */
  lemma EntryWalked(s: State, rootOp: Uuid, root: Uuid, ms: seq<Member>, parentOp: Uuid, parent: Uuid, relative: Path,
                    depth: nat)
    requires Entry(rootOp, root, ms, parentOp, parent, relative, depth) && AllRequired(s, rootOp, root, ms)
    requires forall m :: m in ms ==> Placed(s, rootOp, root, ms, m)
    ensures AllWalked(s, rootOp, root, parentOp, parent)
  {
    hide *;
    var p := EntryMember(rootOp, root, ms, parentOp, parent, relative, depth);
    forall man | ValidFor(s, rootOp, root, man)
      ensures WalkedFolder(s, rootOp, root, man, parentOp, parent)
    {
      if depth != 1 {
        RequiredOf(s, rootOp, root, ms, p);
        var j := RequiredAt(s, rootOp, root, p, man);
        var d := PlacedRow(s, rootOp, root, ms, p);
        CreatedRowIs(s, p, d);
        WalkedIf(s, rootOp, root, man, parentOp, parent, j);
      } else {
        WalkedIfRoot(s, rootOp, root, man, parentOp, parent);
      }
    }
    AllWalkedIf(s, rootOp, root, parentOp, parent);
  }

  lemma RequiredOf(s: State, rootOp: Uuid, root: Uuid, ms: seq<Member>, m: Member)
    requires AllRequired(s, rootOp, root, ms) && m in ms
    ensures Required(s, rootOp, root, m)
  {
    hide Required;
  }

  lemma EntryMember(rootOp: Uuid, root: Uuid, ms: seq<Member>, parentOp: Uuid, parent: Uuid, relative: Path,
                    depth: nat) returns (p: Member)
    requires Entry(rootOp, root, ms, parentOp, parent, relative, depth)
    ensures depth == 1 ==> parentOp == rootOp && parent == root
    ensures depth != 1 ==> p in ms && p.oldOp == parentOp && p.obj == parent && p.otype == Folder
  {
    if depth != 1 {
      p :| p in ms && p.oldOp == parentOp && p.obj == parent && p.otype == Folder && p.depth + 1 == depth
          && p.relative == relative;
    } else {
      p := Member(NIL, NIL, NIL, NIL, Folder, "", [], 0, 0, 0, [], [], []);
    }
  }

  lemma PlacedRow(s: State, rootOp: Uuid, root: Uuid, ms: seq<Member>, m: Member) returns (d: Uuid)
    requires Placed(s, rootOp, root, ms, m)
    ensures CreatedBy(s, m, d) && (d == rootOp || exists p :: p in ms && p.oldOp == d)
  {
    hide CreatedBy, ParentIs;
    if m.depth == 1 {
      d := rootOp;
    } else {
      var p :| p in ms && ParentIs(p, m) && CreatedBy(s, m, p.oldOp);
      d := p.oldOp;
    }
  }

  lemma WalkedIf(s: State, rootOp: Uuid, root: Uuid, man: Manifest, parentOp: Uuid, parent: Uuid, j: nat)
    requires j < |man.members| && man.members[j].oldOp == parentOp && Position(s, parentOp) < |s.rows|
    requires s.rows[Position(s, parentOp)].m.obj == parent && s.rows[Position(s, parentOp)].m.otype == Folder
    ensures WalkedFolder(s, rootOp, root, man, parentOp, parent)
  {
    hide Position;
  }

  lemma WalkedIfRoot(s: State, rootOp: Uuid, root: Uuid, man: Manifest, parentOp: Uuid, parent: Uuid)
    requires parentOp == rootOp && parent == root
    ensures WalkedFolder(s, rootOp, root, man, parentOp, parent)
  {
  }

  lemma AllWalkedIf(s: State, rootOp: Uuid, root: Uuid, parentOp: Uuid, parent: Uuid)
    requires forall man :: ValidFor(s, rootOp, root, man) ==> WalkedFolder(s, rootOp, root, man, parentOp, parent)
    ensures AllWalked(s, rootOp, root, parentOp, parent)
  {
    hide ValidFor, WalkedFolder;
  }

  /** An object with other rows, or with a baseline, rules every manifest out. */
  lemma HistoryFails(s: State, rootOp: Uuid, root: Uuid, m: Member, d: Uuid)
    requires WellFormed(s) && Required(s, rootOp, root, m) && CreatedBy(s, m, d)
    requires CountOf(s, m.obj, |s.rows|) != 1 + |m.chain| || m.obj in s.baselines
    ensures NoManifest(s, rootOp, root)
  {
    hide *;
    forall man
      ensures !ValidFor(s, rootOp, root, man)
    {
      if ValidFor(s, rootOp, root, man) {
        ValidParts(s, rootOp, root, man);
        var j := RequiredAt(s, rootOp, root, m, man);
        NoteInManifest(s, rootOp, root, man, j, m, d);
        QueuedMember(s, man, root, j);
        QueuedRows(s, man, root, man.members[j]);
        QueuedBaseline(s, man, root, man.members[j]);
      }
    }
    NoneIf(s, rootOp, root);
  }

  // ---------------------------------------------------------------- nothing is gathered twice

  /** The member's create waits for op. */
  predicate WaitsFor(s: State, m: Member, op: Uuid) {
    Position(s, m.oldOp) < |s.rows| && op in Deps(s.rows[Position(s, m.oldOp)].m)
  }

  ghost predicate NoneWaits(s: State, ms: seq<Member>, op: Uuid) {
    forall m :: m in ms ==> !WaitsFor(s, m, op)
  }

  /** Only the first c children have been gathered among what waits for op. */
  ghost predicate WaitersAre(s: State, ms: seq<Member>, op: Uuid, children: seq<nat>, c: nat) {
    forall m :: m in ms && WaitsFor(s, m, op) ==>
      exists a :: 0 <= a < c && a < |children| && children[a] < |s.rows| && m.oldOp == s.rows[children[a]].m.op
  }

  /** Whatever the member's create waits for is at position p or later. */
  predicate WaitsFrom(s: State, m: Member, p: nat) {
    Position(s, m.oldOp) < |s.rows| && forall d :: d in Deps(s.rows[Position(s, m.oldOp)].m) ==> Position(s, d) >= p
  }

  ghost predicate LaterFrom(s: State, ms: seq<Member>, n: nat, p: nat) {
    forall i :: n <= i < |ms| ==> WaitsFrom(s, ms[i], p)
  }

  lemma WaitersStart(s: State, ms: seq<Member>, op: Uuid, children: seq<nat>)
    requires NoneWaits(s, ms, op)
    ensures WaitersAre(s, ms, op, children, 0) && LaterFrom(s, ms, |ms|, Position(s, op))
  {
    hide WaitsFor, Position;
  }

  lemma WaiterAt(s: State, ms: seq<Member>, op: Uuid, children: seq<nat>, c: nat, m: Member) returns (a: nat)
    requires WaitersAre(s, ms, op, children, c) && m in ms && WaitsFor(s, m, op)
    ensures a < c && a < |children| && children[a] < |s.rows| && m.oldOp == s.rows[children[a]].m.op
  {
    hide WaitsFor;
    a :| 0 <= a < c && a < |children| && children[a] < |s.rows| && m.oldOp == s.rows[children[a]].m.op;
  }

  lemma SeenMember(ms: seq<Member>, seen: set<Uuid>, o: Uuid) returns (x: Member)
    requires SeenAre(ms, seen) && o in seen
    ensures x in ms && x.obj == o
  {
    x :| x in ms && x.obj == o;
  }

  lemma WalkedSeen(s: State, rootOp: Uuid, root: Uuid, mint: nat -> Uuid, ms: seq<Member>, seen: set<Uuid>, next: nat)
    requires Walked(s, rootOp, root, mint, ms, seen, next)
    ensures SeenAre(ms, seen)
    ensures forall m :: m in ms ==> Placed(s, rootOp, root, ms, m) && Sound(s, Position(s, rootOp), m)
  {
    hide Placed, Sound, MintedBelow, ObjsDistinct, SeenAre, NewOpsApart;
  }

  /** The c-th child is not among the members yet. */
  lemma ChildNotGathered(s: State, ms: seq<Member>, op: Uuid, c: nat, x: Member)
    requires WellFormed(s) && c < |Dependents(s, op, |s.rows|)|
             && WaitersAre(s, ms, op, Dependents(s, op, |s.rows|), c) && x in ms
    ensures var i := Dependents(s, op, |s.rows|)[c]; i < |s.rows| && x.oldOp != s.rows[i].m.op
  {
    var children := Dependents(s, op, |s.rows|);
    hide *;
    ChildIs(s, op, c);
    var i := children[c];
    if x.oldOp == s.rows[i].m.op {
      Behind(s, i, op);
      WaitsForIf(s, x, op, i);
      var a := WaiterAt(s, ms, op, children, c, x);
      OneRow(s, i, children[a]);
      DependentsAre(s, op, |s.rows|);
    }
  }

  lemma WaitsForIf(s: State, x: Member, op: Uuid, i: nat)
    requires i < |s.rows| && Position(s, x.oldOp) == i && op in Deps(s.rows[i].m)
    ensures WaitsFor(s, x, op)
  {
    hide Position, Deps;
  }

  /** A child whose object was gathered before rules every manifest out. */
  lemma DuplicateFails(s: State, rootOp: Uuid, root: Uuid, mint: nat -> Uuid, ms: seq<Member>, seen: set<Uuid>,
                       next: nat, parentOp: Uuid, parent: Uuid, c: nat)
    requires WellFormed(s) && Walked(s, rootOp, root, mint, ms, seen, next) && AllRequired(s, rootOp, root, ms)
    requires AllWalked(s, rootOp, root, parentOp, parent)
    requires c < |Dependents(s, parentOp, |s.rows|)|
             && WaitersAre(s, ms, parentOp, Dependents(s, parentOp, |s.rows|), c)
    requires var i := Dependents(s, parentOp, |s.rows|)[c]; i < |s.rows| ==> s.rows[i].m.obj in seen
    ensures NoManifest(s, rootOp, root)
  {
    hide *;
    ChildIs(s, parentOp, c);
    var i := Dependents(s, parentOp, |s.rows|)[c];
    WalkedSeen(s, rootOp, root, mint, ms, seen, next);
    var x := SeenMember(ms, seen, s.rows[i].m.obj);
    ChildNotGathered(s, ms, parentOp, c, x);
    var d := PlacedRow(s, rootOp, root, ms, x);
    RequiredOf(s, rootOp, root, ms, x);
    SeenFails(s, rootOp, root, parentOp, parent, i, x, d);
  }

  lemma RequiredNext(s: State, rootOp: Uuid, root: Uuid, ms: seq<Member>, m: Member)
    requires AllRequired(s, rootOp, root, ms) && Required(s, rootOp, root, m)
    ensures AllRequired(s, rootOp, root, ms + [m])
  {
    hide Required;
  }

  /** Nothing gathered so far waits for a new object's create. */
  lemma NewFolderHasNone(s: State, rootOp: Uuid, root: Uuid, mint: nat -> Uuid, ms: seq<Member>, seen: set<Uuid>,
                         next: nat, parentOp: Uuid, i: nat, m: Member)
    requires WellFormed(s) && Walked(s, rootOp, root, mint, ms, seen, next) && i < |s.rows| && s.rows[i].m.obj !in seen
    requires m.oldOp == s.rows[i].m.op && CreatedBy(s, m, parentOp)
    requires Position(s, rootOp) <= Position(s, parentOp) < i && Position(s, m.oldOp) == i
    ensures NoneWaits(s, ms + [m], m.oldOp)
  {
    hide *;
    WalkedSeen(s, rootOp, root, mint, ms, seen, next);
    forall x | x in ms + [m]
      ensures !WaitsFor(s, x, m.oldOp)
    {
      if x in ms {
        var d := PlacedRow(s, rootOp, root, ms, x);
        CreatedRowIs(s, x, d);
        if d != rootOp {
          var p :| p in ms && p.oldOp == d;
          NotSeenObj(s, rootOp, root, ms, seen, i, p);
        }
        WaitsNot(s, x, d, m.oldOp);
      } else {
        CreatedRowIs(s, m, parentOp);
        WaitsNot(s, m, parentOp, m.oldOp);
      }
    }
    NoneWaitsIf(s, ms + [m], m.oldOp);
  }

  lemma NotSeenObj(s: State, rootOp: Uuid, root: Uuid, ms: seq<Member>, seen: set<Uuid>, i: nat, p: Member)
    requires WellFormed(s) && SeenAre(ms, seen) && i < |s.rows| && s.rows[i].m.obj !in seen && p in ms
             && Placed(s, rootOp, root, ms, p)
    ensures p.oldOp != s.rows[i].m.op
  {
    hide *;
    var d := PlacedRow(s, rootOp, root, ms, p);
    CreatedRowIs(s, p, d);
    InSeen(ms, seen, p);
    if p.oldOp == s.rows[i].m.op {
      OneRow(s, i, Position(s, p.oldOp));
    }
  }

  lemma InSeen(ms: seq<Member>, seen: set<Uuid>, p: Member)
    requires SeenAre(ms, seen) && p in ms
    ensures p.obj in seen
  {
  }

  lemma WaitsNot(s: State, x: Member, d: Uuid, op: Uuid)
    requires Position(s, x.oldOp) < |s.rows| && Deps(s.rows[Position(s, x.oldOp)].m) == {d} && d != op
    ensures !WaitsFor(s, x, op)
  {
    hide Position, Deps;
  }

  lemma NoneWaitsIf(s: State, ms: seq<Member>, op: Uuid)
    requires forall m :: m in ms ==> !WaitsFor(s, m, op)
    ensures NoneWaits(s, ms, op)
  {
    hide WaitsFor;
  }

  lemma WaitsFromIf(s: State, m: Member, d: Uuid)
    requires CreatedBy(s, m, d)
    ensures WaitsFrom(s, m, Position(s, d))
  {
    CreatedRowIs(s, m, d);
    hide CreatedBy, Position, Deps;
  }

  lemma WaitsLater(s: State, m: Member, p: nat, q: nat, op: Uuid)
    requires WaitsFrom(s, m, q) && p <= q
    ensures WaitsFrom(s, m, p) && (Position(s, op) < q ==> !WaitsFor(s, m, op))
  {
    hide Position, Deps;
  }

  /** The new member, and what was gathered below it, keep the account of who waits for the folder. */
  lemma WaitersNext(s: State, ms: seq<Member>, m: Member, all: seq<Member>, n: nat, op: Uuid, children: seq<nat>,
                    c: nat)
    requires WaitersAre(s, ms, op, children, c) && LaterFrom(s, ms, n, Position(s, op)) && n <= |ms|
    requires c < |children| && children[c] < |s.rows| && m.oldOp == s.rows[children[c]].m.op && CreatedBy(s, m, op)
    requires ms + [m] <= all && Position(s, op) < Position(s, m.oldOp)
             && LaterFrom(s, all, |ms| + 1, Position(s, m.oldOp))
    ensures WaitersAre(s, all, op, children, c + 1) && LaterFrom(s, all, n, Position(s, op))
  {
    hide *;
    forall x | x in all && WaitsFor(s, x, op)
      ensures exists a :: 0 <= a < c + 1 && a < |children| && children[a] < |s.rows|
               && x.oldOp == s.rows[children[a]].m.op
    {
      var i :| 0 <= i < |all| && all[i] == x;
      if i < |ms| {
        assert x == ms[i];
        var a := WaiterAt(s, ms, op, children, c, x);
        assert a < c + 1 && x.oldOp == s.rows[children[a]].m.op;
      } else if i == |ms| {
        assert x == (ms + [m])[|ms|];
        assert x.oldOp == s.rows[children[c]].m.op;
      } else {
        LaterAt(s, all, |ms| + 1, Position(s, m.oldOp), i);
        WaitsLater(s, x, Position(s, op), Position(s, m.oldOp), op);
      }
    }
    WaitersIf(s, all, op, children, c + 1);
    forall i | n <= i < |all|
      ensures WaitsFrom(s, all[i], Position(s, op))
    {
      if i < |ms| {
        assert all[i] == ms[i];
        LaterAt(s, ms, n, Position(s, op), i);
      } else if i == |ms| {
        assert all[i] == (ms + [m])[|ms|];
        WaitsFromIf(s, m, op);
      } else {
        LaterAt(s, all, |ms| + 1, Position(s, m.oldOp), i);
        WaitsLater(s, all[i], Position(s, op), Position(s, m.oldOp), op);
      }
    }
    LaterIf(s, all, n, Position(s, op));
  }

  lemma LaterAt(s: State, ms: seq<Member>, n: nat, p: nat, i: nat)
    requires LaterFrom(s, ms, n, p) && n <= i < |ms|
    ensures WaitsFrom(s, ms[i], p)
  {
    hide WaitsFrom;
  }

  lemma LaterIf(s: State, ms: seq<Member>, n: nat, p: nat)
    requires forall i :: n <= i < |ms| ==> WaitsFrom(s, ms[i], p)
    ensures LaterFrom(s, ms, n, p)
  {
    hide WaitsFrom;
  }

  lemma WaitersIf(s: State, ms: seq<Member>, op: Uuid, children: seq<nat>, c: nat)
    requires forall m :: m in ms && WaitsFor(s, m, op) ==>
               exists a :: 0 <= a < c && a < |children| && children[a] < |s.rows| && m.oldOp == s.rows[children[a]].m.op
    ensures WaitersAre(s, ms, op, children, c)
  {
    hide WaitsFor;
  }

  lemma NothingLater(s: State, ms: seq<Member>, p: nat)
    ensures LaterFrom(s, ms, |ms|, p)
  {
  }

  lemma CreatedKept(s: State, b: Member, r: Member, d: Uuid)
    requires CreatedBy(s, b, d) && r == b.(chain := r.chain, finalBlob := r.finalBlob)
    ensures CreatedBy(s, r, d)
  {
    hide Position, Deps;
  }

  lemma NoChainYet(s: State, m: Member)
    requires m.chain == [] && m.createBlob == m.finalBlob && Position(s, m.oldOp) < |s.rows|
    ensures ChainFound(s, m, 0) && Previous(m, 0) == m.oldOp
  {
  }

  lemma WholeChainFound(s: State, r: Member)
    requires forall i :: 0 <= i < |s.rows| ==> Previous(r, |r.chain|) !in Deps(s.rows[i].m)
    ensures NextOnly(s, r, |r.chain|)
  {
    hide Previous, Deps;
  }

  lemma ExtendedFrom(r: Member, op: Uuid, hash: Hash)
    ensures var e := Extended(r, op, hash);
            e == r.(chain := e.chain, finalBlob := e.finalBlob) && |e.chain| == |r.chain| + 1
  {
    hide Previous;
  }
}
