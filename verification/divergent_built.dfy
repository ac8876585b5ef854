/** What the creates of a divergent move build on the server: the image of the moved tree below the recovered root. */
module DivergentBuilt {
  import opened Ids
  import opened Optional
  import opened Outbox
  import opened DivergentPlan
  import opened DivergentReplacement
  import opened DivergentTransaction
  import T = RecursiveTree

  /** A member as the server is to have it. */
  function NodeOf(m: TreeMember): T.Node {
    T.Node(m.otype, m.recoveredParent, m.name, if m.otype == Note then m.recoveredBlob else [])
  }

  /** What is there once the root and the first n creates are played. */
  function Slot(man: TreeManifest, base: T.Tree, n: nat, o: Uuid): Option<T.Node> {
    var k := FindRecovered(man.members, o, 0);
    if k < |man.members| then if k < n then Some(NodeOf(man.members[k])) else None else T.At(base, o)
  }

  ghost predicate Grown(t: T.Tree, man: TreeManifest, base: T.Tree, n: nat) {
    forall o :: T.At(t, o) == Slot(man, base, n, o)
  }

  /** On the server the recovered-conflicts folder is there, and nothing has one of the new identities yet. */
  ghost predicate Vacant(man: TreeManifest, recoveredRoot: Uuid, base: T.Tree) {
    && T.FolderAt(base, CONFLICT_RECOVERED) && recoveredRoot !in base
    && forall k :: 0 <= k < |man.members| ==>
         man.members[k].recovered !in base && man.members[k].recovered != recoveredRoot
  }

  /** Whatever has one of the first n members below it is a folder. */
  predicate FoldersAbove(man: TreeManifest, n: nat)
    requires n <= |man.members|
  {
    forall i, j :: 0 <= i < n && 0 <= j < |man.members|
                   && man.members[j].recovered == man.members[i].recoveredParent ==>
      man.members[j].otype == Folder
  }

  // ---------------------------------------------------------------- one create

  lemma FoundAt(man: TreeManifest, recoveredRoot: Uuid, k: nat)
    requires TreeShape(man, recoveredRoot) && k < |man.members|
    ensures FindRecovered(man.members, man.members[k].recovered, 0) == k
  {
    var j := FindRecovered(man.members, man.members[k].recovered, 0);
    assert j <= k;
    hide *;
    FitsAt(man, recoveredRoot, k);
    FitsIs(man, recoveredRoot, k);
  }

  lemma SlotIs(man: TreeManifest, base: T.Tree, n: nat, o: Uuid, k: nat)
    requires FindRecovered(man.members, o, 0) == k
    ensures k < |man.members| ==> Slot(man, base, n, o) == if k < n then Some(NodeOf(man.members[k])) else None
    ensures k == |man.members| ==> Slot(man, base, n, o) == T.At(base, o)
  {
  }

  lemma FoundIs(man: TreeManifest, o: Uuid)
    ensures var k := FindRecovered(man.members, o, 0);
            k <= |man.members| && (k < |man.members| ==> man.members[k].recovered == o)
    ensures FindRecovered(man.members, o, 0) == |man.members| ==>
              forall j :: 0 <= j < |man.members| ==> man.members[j].recovered != o
  {
  }

  lemma GrownAt(t: T.Tree, man: TreeManifest, base: T.Tree, n: nat, o: Uuid)
    requires Grown(t, man, base, n)
    ensures T.At(t, o) == Slot(man, base, n, o)
  {
    hide Slot, T.At;
  }

  lemma GrownIf(t: T.Tree, man: TreeManifest, base: T.Tree, n: nat)
    requires forall o :: T.At(t, o) == Slot(man, base, n, o)
    ensures Grown(t, man, base, n)
  {
    hide Slot, T.At;
  }

  /** Only the n-th member's slot changes. */
  lemma SlotNext(man: TreeManifest, recoveredRoot: Uuid, base: T.Tree, n: nat, o: Uuid)
    requires TreeShape(man, recoveredRoot) && n < |man.members|
    ensures var m := man.members[n];
            Slot(man, base, n + 1, o) == if o == m.recovered then Some(NodeOf(m)) else Slot(man, base, n, o)
  {
    hide *;
    FoundAt(man, recoveredRoot, n);
    FoundIs(man, o);
    SlotIs(man, base, n, o, FindRecovered(man.members, o, 0));
    SlotIs(man, base, n + 1, o, FindRecovered(man.members, o, 0));
  }

  /** Where the creates start, once the recovered root is there. */
  ghost predicate Rooted(man: TreeManifest, recoveredRoot: Uuid, base: T.Tree) {
    T.FolderAt(base, recoveredRoot) && forall k :: 0 <= k < |man.members| ==> man.members[k].recovered !in base
  }

  lemma RootedIs(man: TreeManifest, recoveredRoot: Uuid, base: T.Tree)
    requires Rooted(man, recoveredRoot, base)
    ensures T.At(base, recoveredRoot).Some? && T.At(base, recoveredRoot).value.otype == Folder
  {
  }

  /** The parent of the n-th member is there, and is a folder if the members above others are. */
  lemma ParentThere(t: T.Tree, man: TreeManifest, recoveredRoot: Uuid, base: T.Tree, n: nat) returns (j: nat)
    requires TreeShape(man, recoveredRoot) && Rooted(man, recoveredRoot, base) && n < |man.members|
             && Grown(t, man, base, n)
    ensures j <= n
    ensures j == 0 ==> man.members[n].recoveredParent == recoveredRoot && T.FolderAt(t, recoveredRoot)
    ensures j > 0 ==> man.members[j - 1].recovered == man.members[n].recoveredParent
                      && (T.FolderAt(t, man.members[n].recoveredParent) <==> man.members[j - 1].otype == Folder)
  {
    hide *;
    j := DependencyAt(man, recoveredRoot, n);
    var p := man.members[n].recoveredParent;
    GrownAt(t, man, base, n, p);
    T.FolderAtIs(t, p);
    if j == 0 {
      RootFound(man, recoveredRoot);
      SlotIs(man, base, n, p, |man.members|);
      RootedIs(man, recoveredRoot, base);
    } else {
      FoundAt(man, recoveredRoot, j - 1);
      SlotIs(man, base, n, p, j - 1);
      ImageType(man.members[j - 1]);
    }
  }

  lemma ImageType(m: TreeMember)
    ensures NodeOf(m).otype == m.otype
  {
  }

  lemma RootFound(man: TreeManifest, recoveredRoot: Uuid)
    requires TreeShape(man, recoveredRoot)
    ensures FindRecovered(man.members, recoveredRoot, 0) == |man.members|
  {
    hide *;
    FoundIs(man, recoveredRoot);
    forall k | 0 <= k < |man.members|
      ensures man.members[k].recovered != recoveredRoot
    {
      FitsAt(man, recoveredRoot, k);
      FitsIs(man, recoveredRoot, k);
    }
  }

  lemma NotFolderRefused(t: T.Tree, m: Mutation, parent: Uuid)
    requires m.kind == Create && m.parent == Some(parent) && !T.FolderAt(t, parent)
    ensures T.Apply(t, m) == None
  {
  }

  lemma CreateNode(man: TreeManifest, m: TreeMember)
    ensures var c := TreeCreate(man, m); T.Node(c.otype, m.recoveredParent, c.name, c.blob) == NodeOf(m)
  {
  }

  /** Member i is the parent of member n exactly if i is j - 1; the parent is the recovered root if j is zero. */
  predicate ParentIs(man: TreeManifest, n: nat, j: nat)
    requires n < |man.members|
  {
    forall i :: 0 <= i < |man.members| ==> (man.members[i].recovered == man.members[n].recoveredParent <==> i + 1 == j)
  }

  lemma ParentIsIf(man: TreeManifest, recoveredRoot: Uuid, n: nat, j: nat)
    requires TreeShape(man, recoveredRoot) && j <= n < |man.members|
    requires if j == 0 then man.members[n].recoveredParent == recoveredRoot
             else man.members[j - 1].recovered == man.members[n].recoveredParent
    ensures ParentIs(man, n, j)
  {
    forall i | 0 <= i < |man.members|
      ensures man.members[i].recovered == man.members[n].recoveredParent <==> i + 1 == j
    {
      hide *;
      FoundAt(man, recoveredRoot, i);
      if j == 0 {
        RootFound(man, recoveredRoot);
      } else {
        FoundAt(man, recoveredRoot, j - 1);
      }
    }
    hide TreeShape;
  }

  /** The one thing to look at for the n-th member is its parent. */
  lemma AboveNext(man: TreeManifest, n: nat, j: nat)
    requires j <= n < |man.members| && FoldersAbove(man, n) && ParentIs(man, n, j)
    ensures FoldersAbove(man, n + 1) <==> (j > 0 ==> man.members[j - 1].otype == Folder)
  {
    if j > 0 {
      assert man.members[j - 1].recovered == man.members[n].recoveredParent;
    }
  }

  lemma GrownNext(t: T.Tree, man: TreeManifest, recoveredRoot: Uuid, base: T.Tree, n: nat)
    requires TreeShape(man, recoveredRoot) && n < |man.members| && Grown(t, man, base, n)
    ensures Grown(t[man.members[n].recovered := NodeOf(man.members[n])], man, base, n + 1)
  {
    var obj, node := man.members[n].recovered, NodeOf(man.members[n]);
    var u := t[obj := node];
    hide *;
    forall o
      ensures T.At(u, o) == Slot(man, base, n + 1, o)
    {
      T.AtUpdated(t, obj, node, o);
      GrownAt(t, man, base, n, o);
      SlotNext(man, recoveredRoot, base, n, o);
    }
    GrownIf(u, man, base, n + 1);
  }

  lemma NotThere(t: T.Tree, man: TreeManifest, recoveredRoot: Uuid, base: T.Tree, n: nat)
    requires TreeShape(man, recoveredRoot) && n < |man.members| && Grown(t, man, base, n)
    ensures man.members[n].recovered !in t
  {
    var obj := man.members[n].recovered;
    hide *;
    FoundAt(man, recoveredRoot, n);
    GrownAt(t, man, base, n, obj);
    SlotIs(man, base, n, obj, n);
    T.AtNone(t, obj);
  }

  lemma Played(t: T.Tree, man: TreeManifest, recoveredRoot: Uuid, base: T.Tree, n: nat)
    requires TreeShape(man, recoveredRoot) && Rooted(man, recoveredRoot, base) && n < |man.members|
             && Grown(t, man, base, n)
    requires FoldersAbove(man, n)
    ensures var u := T.Apply(t, TreeCreate(man, man.members[n]));
            && (u.Some? <==> FoldersAbove(man, n + 1)) && (u.Some? ==> Grown(u.value, man, base, n + 1))
  {
    var m := man.members[n];
    var c := TreeCreate(man, m);
    hide *;
    CreateIs(man, m);
    CreateNode(man, m);
    var j := ParentThere(t, man, recoveredRoot, base, n);
    ParentIsIf(man, recoveredRoot, n, j);
    AboveNext(man, n, j);
    if T.FolderAt(t, m.recoveredParent) {
      NotThere(t, man, recoveredRoot, base, n);
      T.ApplyCreate(t, c, m.recoveredParent);
      GrownNext(t, man, recoveredRoot, base, n);
    } else {
      NotFolderRefused(t, c, m.recoveredParent);
    }
  }

  // ---------------------------------------------------------------- all creates

  function WithRoot(base: T.Tree, recoveredRoot: Uuid, rootName: string): T.Tree {
    base[recoveredRoot := T.Node(Folder, CONFLICT_RECOVERED, rootName, [])]
  }

  lemma RootPlayed(man: TreeManifest, recoveredRoot: Uuid, rootName: string, base: T.Tree)
    requires Vacant(man, recoveredRoot, base)
    ensures T.Apply(base, TreeRoot(man, recoveredRoot, rootName)) == Some(WithRoot(base, recoveredRoot, rootName))
    ensures Rooted(man, recoveredRoot, WithRoot(base, recoveredRoot, rootName))
  {
  }

  lemma GrownStart(man: TreeManifest, recoveredRoot: Uuid, base: T.Tree)
    requires Rooted(man, recoveredRoot, base)
    ensures Grown(base, man, base, 0)
  {
    forall o
      ensures T.At(base, o) == Slot(man, base, 0, o)
    {
      FoundIs(man, o);
      SlotIs(man, base, 0, o, FindRecovered(man.members, o, 0));
    }
    hide Slot, T.At;
  }

  lemma AboveLess(man: TreeManifest, n: nat)
    requires n < |man.members|
    ensures FoldersAbove(man, n + 1) ==> FoldersAbove(man, n)
  {
  }

  /** Played in their order, the first n creates succeed exactly if folders are above them, and then they build those
      members. */
  lemma {:induction false} CreatesPlayed(man: TreeManifest, recoveredRoot: Uuid, rootName: string, base: T.Tree, n: nat)
    requires TreeShape(man, recoveredRoot) && Vacant(man, recoveredRoot, base) && n <= |man.members|
    ensures var t := T.Play(base, TreeCreates(man, recoveredRoot, rootName, n));
            && (t.Some? <==> FoldersAbove(man, n))
            && (t.Some? ==> Grown(t.value, man, WithRoot(base, recoveredRoot, rootName), n))
  {
    var start := WithRoot(base, recoveredRoot, rootName);
    if n == 0 {
      assert FoldersAbove(man, n);
      hide *;
      RootPlayed(man, recoveredRoot, rootName, base);
      TreeSplit(man, recoveredRoot, rootName, n);
      T.PlayLast(base, [], TreeRoot(man, recoveredRoot, rootName));
      T.PlayNone(base);
      GrownStart(man, recoveredRoot, start);
    } else {
      var before := TreeCreates(man, recoveredRoot, rootName, n - 1);
      hide *;
      RootPlayed(man, recoveredRoot, rootName, base);
      TreeSplit(man, recoveredRoot, rootName, n);
      CreatesPlayed(man, recoveredRoot, rootName, base, n - 1);
      T.PlayLast(base, before, TreeCreate(man, man.members[n - 1]));
      AboveLess(man, n - 1);
      if T.Play(base, before).Some? {
        Played(T.Play(base, before).value, man, recoveredRoot, start, n - 1);
      }
    }
  }

  // ---------------------------------------------------------------- the image of the tree on disk

  /** On disk, whatever has an entry below it is a folder. */
  predicate FolderParents(cs: seq<Candidate>) {
    forall i, j :: 0 <= i < |cs| && 0 <= j < |cs| && cs[i].parent == cs[j].obj ==> cs[j].otype == Folder
  }

  lemma ParentIsSource(s: State, applied: map<Uuid, Uuid>, root: Uuid, recoveredRoot: Uuid, newRoot: Uuid,
                       mint: nat -> Uuid, k: nat, cs: seq<Candidate>, man: TreeManifest, i: nat, j: nat)
    requires Planned(s, applied, root, recoveredRoot, mint, k, cs, man)
             && MintNew(s, root, recoveredRoot, newRoot, cs, mint)
    requires i < |man.members| && j < |man.members| && man.members[j].recovered == man.members[i].recoveredParent
    ensures |cs| == |man.members| && cs[i].parent == cs[j].obj && cs[j].otype == man.members[j].otype
  {
    hide *;
    var parentOp := PlanAt(s, applied, root, recoveredRoot, mint, k, cs, man, i);
    var other := PlanAt(s, applied, root, recoveredRoot, mint, k, cs, man, j);
    FromAll(cs[i], man.members[i]);
    FromAll(cs[j], man.members[j]);
    MemberImage(s, applied, root, recoveredRoot, newRoot, mint, k, cs, man, i);
    MemberImage(s, applied, root, recoveredRoot, newRoot, mint, k, cs, man, j);
    PlacedInTree(man, root, recoveredRoot, i, parentOp);
    SourceInTree(man, root, j);
    if man.members[i].sourceParent != man.members[j].source {
      PlanIsOneToOne(s, applied, root, recoveredRoot, newRoot, mint, k, cs, man);
      assert false;
    }
  }

  lemma SourceInTree(man: TreeManifest, root: Uuid, j: nat)
    requires j < |man.members|
    ensures InTree(man, root, man.members[j].source)
  {
  }

  lemma PlacedInTree(man: TreeManifest, root: Uuid, recoveredRoot: Uuid, i: nat, parentOp: Uuid)
    requires i < |man.members| && PlacedUnder(man.members, man.operation, root, recoveredRoot, i, parentOp)
    ensures InTree(man, root, man.members[i].sourceParent)
  {
  }

  lemma AboveIf(s: State, applied: map<Uuid, Uuid>, root: Uuid, recoveredRoot: Uuid, mint: nat -> Uuid, k: nat,
                cs: seq<Candidate>, man: TreeManifest, full: TreeManifest)
    requires DivergentTransaction.Ready(s, applied, root, recoveredRoot, mint, k, cs, man, full) && FolderParents(cs)
    ensures FoldersAbove(full, |full.members|)
  {
    forall i, j | 0 <= i < |full.members| && 0 <= j < |full.members|
        && full.members[j].recovered == full.members[i].recoveredParent
      ensures full.members[j].otype == Folder
    {
      hide *;
      ReadyIs(s, applied, root, recoveredRoot, mint, k, cs, man, full);
      MintIs(s, applied, root, recoveredRoot, man.newRoot, cs, mint);
      RekeyedAt(man, full, i);
      RekeyedAt(man, full, j);
      ParentIsSource(s, applied, root, recoveredRoot, man.newRoot, mint, k, cs, man, i, j);
      FolderParentIs(cs, i, j);
    }
    hide DivergentTransaction.Ready;
  }

  lemma MintIs(s: State, applied: map<Uuid, Uuid>, root: Uuid, recoveredRoot: Uuid, newRoot: Uuid, cs: seq<Candidate>,
               mint: nat -> Uuid)
    requires Sourced(s, applied, root, recoveredRoot, newRoot, cs, mint)
    ensures MintNew(s, root, recoveredRoot, newRoot, cs, mint)
  {
    hide MintNew;
  }

  lemma FolderParentIs(cs: seq<Candidate>, i: nat, j: nat)
    requires FolderParents(cs) && i < |cs| && j < |cs| && cs[i].parent == cs[j].obj
    ensures cs[j].otype == Folder
  {
  }

  /** The tree t has the image of candidate i: its new identity below its parent's, with its kind and name, and a note's
      recovered bytes. */
  predicate HasImage(t: T.Tree, man: TreeManifest, root: Uuid, recoveredRoot: Uuid, c: Candidate, blob: Hash) {
    T.At(t, Image(man, root, recoveredRoot, c.obj))
    == Some(T.Node(c.otype, Image(man, root, recoveredRoot, c.parent), c.name, if c.otype == Note then blob else []))
  }

  lemma HasImageIf(t: T.Tree, man: TreeManifest, root: Uuid, recoveredRoot: Uuid, c: Candidate, m: TreeMember)
    requires T.At(t, m.recovered) == Some(NodeOf(m)) && m.otype == c.otype && m.name == c.name
    requires Image(man, root, recoveredRoot, c.obj) == m.recovered
             && Image(man, root, recoveredRoot, c.parent) == m.recoveredParent
    ensures HasImage(t, man, root, recoveredRoot, c, m.recoveredBlob)
  {
  }

  /** The creates of a plan for a tree on disk can be played on the server, and build the image of the tree below the
      recovered root: every candidate under its new identity, below the image of its parent, with its kind and name;
      notes that were never sent with their last bytes. Nothing else changes. */
  lemma TreeBuilds(s: State, applied: map<Uuid, Uuid>, root: Uuid, recoveredRoot: Uuid, mint: nat -> Uuid, k: nat,
                   cs: seq<Candidate>, man: TreeManifest, full: TreeManifest, rootName: string, base: T.Tree)
    requires DivergentTransaction.Ready(s, applied, root, recoveredRoot, mint, k, cs, man, full) && FolderParents(cs)
             && Vacant(full, recoveredRoot, base)
    ensures |full.members| == |cs| == |man.members|
    ensures var t := T.Play(base, TreeCreates(full, recoveredRoot, rootName, |full.members|));
            && t.Some? && T.At(t.value, recoveredRoot) == Some(T.Node(Folder, CONFLICT_RECOVERED, rootName, []))
            && (forall i :: 0 <= i < |cs| ==>
                  HasImage(t.value, man, root, recoveredRoot, cs[i], full.members[i].recoveredBlob))
            && (forall o :: T.At(t.value, o) != T.At(base, o) ==>
                  o == recoveredRoot || exists i :: 0 <= i < |cs| && o == Image(man, root, recoveredRoot, cs[i].obj))
    ensures forall i :: 0 <= i < |cs| && full.members[i].revision == 0 ==> full.members[i].recoveredBlob == cs[i].blob
  {
    var n := |full.members|;
    var start := WithRoot(base, recoveredRoot, rootName);
    hide *;
    ReadyIs(s, applied, root, recoveredRoot, mint, k, cs, man, full);
    AboveIf(s, applied, root, recoveredRoot, mint, k, cs, man, full);
    CreatesPlayed(full, recoveredRoot, rootName, base, n);
    var t := T.Play(base, TreeCreates(full, recoveredRoot, rootName, n)).value;
    RootBuilt(t, full, recoveredRoot, rootName, base);
    PlannedIs(s, applied, root, recoveredRoot, mint, k, cs, man);
    forall i | 0 <= i < |cs|
      ensures HasImage(t, man, root, recoveredRoot, cs[i], full.members[i].recoveredBlob)
      ensures full.members[i].recovered == Image(man, root, recoveredRoot, cs[i].obj)
      ensures full.members[i].revision == 0 ==> full.members[i].recoveredBlob == cs[i].blob
    {
      MemberBuilt(s, applied, root, recoveredRoot, mint, k, cs, man, full, start, t, i);
    }
    forall o | T.At(t, o) != T.At(base, o)
      ensures o == recoveredRoot || exists i :: 0 <= i < |cs| && o == Image(man, root, recoveredRoot, cs[i].obj)
    {
      OnlyBuilt(t, full, recoveredRoot, rootName, base, o);
    }
  }

  lemma RootBuilt(t: T.Tree, man: TreeManifest, recoveredRoot: Uuid, rootName: string, base: T.Tree)
    requires TreeShape(man, recoveredRoot) && Grown(t, man, WithRoot(base, recoveredRoot, rootName), |man.members|)
    ensures T.At(t, recoveredRoot) == Some(T.Node(Folder, CONFLICT_RECOVERED, rootName, []))
  {
    assert T.At(WithRoot(base, recoveredRoot, rootName), recoveredRoot)
           == Some(T.Node(Folder, CONFLICT_RECOVERED, rootName, []));
    hide *;
    RootFound(man, recoveredRoot);
    GrownAt(t, man, WithRoot(base, recoveredRoot, rootName), |man.members|, recoveredRoot);
    SlotIs(man, WithRoot(base, recoveredRoot, rootName), |man.members|, recoveredRoot, |man.members|);
  }

  /** What changed is the recovered root or has a member's new identity. */
  lemma OnlyBuilt(t: T.Tree, man: TreeManifest, recoveredRoot: Uuid, rootName: string, base: T.Tree, o: Uuid)
    requires Grown(t, man, WithRoot(base, recoveredRoot, rootName), |man.members|) && T.At(t, o) != T.At(base, o)
    ensures o == recoveredRoot || exists i :: 0 <= i < |man.members| && o == man.members[i].recovered
  {
    var start := WithRoot(base, recoveredRoot, rootName);
    assert o != recoveredRoot ==> T.At(start, o) == T.At(base, o);
    hide *;
    FoundIs(man, o);
    GrownAt(t, man, start, |man.members|, o);
    SlotIs(man, start, |man.members|, o, FindRecovered(man.members, o, 0));
  }

  lemma MemberBuilt(s: State, applied: map<Uuid, Uuid>, root: Uuid, recoveredRoot: Uuid, mint: nat -> Uuid, k: nat,
                    cs: seq<Candidate>, man: TreeManifest, full: TreeManifest, start: T.Tree, t: T.Tree, i: nat)
    requires DivergentTransaction.Ready(s, applied, root, recoveredRoot, mint, k, cs, man, full) && i < |full.members|
             && Grown(t, full, start, |full.members|)
    ensures |full.members| == |cs|
    ensures HasImage(t, man, root, recoveredRoot, cs[i], full.members[i].recoveredBlob)
    ensures full.members[i].recovered == Image(man, root, recoveredRoot, cs[i].obj)
    ensures full.members[i].revision == 0 ==> full.members[i].recoveredBlob == cs[i].blob
  {
    var m := full.members[i];
    hide *;
    ReadyIs(s, applied, root, recoveredRoot, mint, k, cs, man, full);
    MintIs(s, applied, root, recoveredRoot, man.newRoot, cs, mint);
    RekeyedAt(man, full, i);
    MemberImage(s, applied, root, recoveredRoot, man.newRoot, mint, k, cs, man, i);
    var parentOp := PlanAt(s, applied, root, recoveredRoot, mint, k, cs, man, i);
    FromAll(cs[i], man.members[i]);
    FoundAt(full, recoveredRoot, i);
    GrownAt(t, full, start, |full.members|, m.recovered);
    SlotIs(full, start, |full.members|, m.recovered, i);
    HasImageIf(t, man, root, recoveredRoot, cs[i], m);
  }
}
