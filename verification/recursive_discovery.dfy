/** Capturing the queued graph below a refused folder. */
module RecursiveDiscovery {
  import opened Ids
  import opened Naming
  import opened Outbox
  import opened RecursiveRecovery
  import opened RecursiveWalk
  import opened RecursiveNecessity

  class Walker {
    const s: State
    const rootOp: Uuid
    const root: Uuid
    const mint: nat -> Uuid
    var members: seq<Member>
    var seen: set<Uuid>
    var next: nat

    constructor (s: State, rootOp: Uuid, root: Uuid, mint: nat -> Uuid)
      ensures this.s == s && this.rootOp == rootOp && this.root == root && this.mint == mint
      ensures members == [] && seen == {} && next == 1
    {
      this.s, this.rootOp, this.root, this.mint := s, rootOp, root, mint;
      members, seen, next := [], {}, 1;
    }

    ghost predicate Valid()
      reads this
    {
      WellFormed(s) && RowsValid(s) && FreshIds(s, mint) && Walked(s, rootOp, root, mint, members, seen, next)
    }

    lemma ValidIs()
      requires Valid()
      ensures WellFormed(s) && RowsValid(s) && FreshIds(s, mint) && Walked(s, rootOp, root, mint, members, seen, next)
    {
    }

    lemma ValidIf()
      requires WellFormed(s) && RowsValid(s) && FreshIds(s, mint) && Walked(s, rootOp, root, mint, members, seen, next)
      ensures Valid()
    {
    }

    /** The note with its whole chain of updates; fails only if no manifest could hold it. */
    method CollectChain(m: Member, ghost d: Uuid) returns (ok: bool, r: Member)
      requires WellFormed(s) && RowsValid(s) && m.chain == [] && m.createBlob == m.finalBlob && m.otype == Note
               && CreatedBy(s, m, d)
      requires ChainFollowed(s, rootOp, root, m)
      ensures ok ==> r == m.(chain := r.chain, finalBlob := r.finalBlob) && ChainFound(s, r, |r.chain|)
                     && NextOnly(s, r, |r.chain|)
      ensures ok ==> Required(s, rootOp, root, r) && CreatedBy(s, r, d)
      ensures !ok ==> NoManifest(s, rootOp, root)
    {
      hide *;
      r := m;
      var previous := m.oldOp;
      CreatedRowIs(s, m, d);
      NoChainYet(s, m);
      while true
        invariant r == m.(chain := r.chain, finalBlob := r.finalBlob)
        invariant previous == Previous(r, |r.chain|) && ChainFound(s, r, |r.chain|) && ChainFollowed(s, rootOp, root, r)
        decreases |s.rows| - Position(s, previous)
      {
        CreatedKept(s, m, r, d);
        var updates := Dependents(s, previous, |s.rows|);
        if |updates| == 0 {
          NoDependents(s, previous);
          WholeChainFound(s, r);
          ChainWhole(s, rootOp, root, r);
          return true, r;
        }
        var i := updates[0];
        ChildIs(s, previous, 0);
        if |updates| != 1 {
          ChildIs(s, previous, 1);
          DependentsAre(s, previous, |s.rows|);
          ChainFails(s, rootOp, root, r, d, i, updates[1]);
          return false, r;
        }
        if !NextUpdate(s, r, i) {
          ChainFails(s, rootOp, root, r, d, i, i);
          return false, r;
        }
        assert updates == [i];
        ChainGrows(s, r, i);
        ChainStays(s, rootOp, root, r, d, i);
        ExtendedFrom(r, s.rows[i].m.op, s.rows[i].m.blob);
        r := Extended(r, s.rows[i].m.op, s.rows[i].m.blob);
        previous := s.rows[i].m.op;
      }
    }

    /** The new member, with everything it needs to join the members found so far. */
    lemma ChildJoins(parentOp: Uuid, parent: Uuid, relative: Path, depth: nat, i: nat, r: Member)
      requires WellFormed(s) && FreshIds(s, mint) && Walked(s, rootOp, root, mint, members, seen, next)
               && ValidObjectId(root)
      requires Entry(rootOp, root, members, parentOp, parent, relative, depth)
      requires ChildOk(s, i, parent) && parentOp in Deps(s.rows[i].m) && BlobOk(s.rows[i].m)
      requires ValidObjectId(s.rows[i].m.obj) && s.rows[i].m.obj !in seen
      requires Completes(Born(parent, relative, depth, s.rows[i].m, mint(next)), r)
      requires (forall k :: 0 <= k < |r.chain| ==> UpdatedBy(s, r, k)) && FinalOf(r) == r.finalBlob
               && (r.otype == Folder ==> r.chain == [])
      ensures Walked(s, rootOp, root, mint, members + [r], seen + {s.rows[i].m.obj}, next + 1)
      ensures Position(s, r.oldOp) == i && Position(s, parentOp) < i
    {
      hide *;
      ChildNamed(s, i, parent);
      var c := s.rows[i].m;
      BornAs(parent, relative, depth, c, mint(next), r);
      BornCreated(s, i, parentOp, parent, relative, depth, mint(next), r);
      BornPlaced(s, rootOp, root, members, parentOp, parent, relative, depth, c, mint(next), r);
      WalkedAt(s, rootOp, root, mint, members, seen, next);
      EntrySound(s, rootOp, root, members, parentOp, parent, relative, depth);
      BornSound(s, Position(s, rootOp), parentOp, parent, relative, depth, c, mint(next), r);
      AddMember(s, rootOp, root, mint, members, seen, next, r);
    }

    /** Gathers everything queued below the folder, depth first in sequence order; fails only if no manifest would
        validate. */
    method WalkFolder(parentOp: Uuid, parent: Uuid, relative: Path, depth: nat) returns (ok: bool)
      requires Valid() && ValidObjectId(root) && Position(s, parentOp) < |s.rows|
      requires Entry(rootOp, root, members, parentOp, parent, relative, depth)
      requires AllRequired(s, rootOp, root, members) && NoneWaits(s, members, parentOp)
      modifies this
      ensures ok ==> Valid() && old(members) <= members
      ensures ok ==> Exhausted(s, members, parentOp) && ExhaustedFrom(s, members, |old(members)|)
      ensures ok ==> AllRequired(s, rootOp, root, members)
                     && LaterFrom(s, members, |old(members)|, Position(s, parentOp))
      ensures !ok ==> NoManifest(s, rootOp, root)
      decreases |s.rows| - Position(s, parentOp), 2
    {
      hide *;
      var children := Dependents(s, parentOp, |s.rows|);
      NothingYet(s, members);
      WaitersStart(s, members, parentOp, children);
      for c := 0 to |children|
        invariant Valid() && old(members) <= members
        invariant ExhaustedFrom(s, members, |old(members)|)
        invariant forall a :: 0 <= a < c ==> children[a] < |s.rows| && Gathered(members, s.rows[children[a]].m.op)
        invariant AllRequired(s, rootOp, root, members) && WaitersAre(s, members, parentOp, children, c)
        invariant LaterFrom(s, members, |old(members)|, Position(s, parentOp))
      {
        EntryStays(rootOp, root, old(members), members, parentOp, parent, relative, depth);
        ghost var ms := members;
        ghost var m;
        ok, m := GatherChild(parentOp, parent, relative, depth, c);
        if !ok {
          return;
        }
        ChildIs(s, parentOp, c);
        FolderJoins(s, ms, m, members, |old(members)|);
        GatheredLast(ms, m);
        KeepGathered(s, ms, [m], members, children[..c], m.oldOp);
        WaitersNext(s, ms, m, members, |old(members)|, parentOp, children, c);
      }
      AllChildren(s, members, parentOp);
      ok := true;
    }

    /** One child, with its updates or with everything below it. */
    method GatherChild(parentOp: Uuid, parent: Uuid, relative: Path, depth: nat, c: nat)
      returns (ok: bool, ghost m: Member)
      requires Valid() && ValidObjectId(root) && Position(s, parentOp) < |s.rows|
      requires Entry(rootOp, root, members, parentOp, parent, relative, depth) && AllRequired(s, rootOp, root, members)
      requires c < |Dependents(s, parentOp, |s.rows|)|
               && WaitersAre(s, members, parentOp, Dependents(s, parentOp, |s.rows|), c)
      modifies this
      ensures ok ==> Valid() && old(members) + [m] <= members && AllRequired(s, rootOp, root, members)
      ensures ok ==> MemberExhausted(s, members, m) && ExhaustedFrom(s, members, |old(members)| + 1)
      ensures ok ==> CreatedBy(s, m, parentOp) && Position(s, parentOp) < Position(s, m.oldOp)
      ensures ok ==> LaterFrom(s, members, |old(members)| + 1, Position(s, m.oldOp))
      ensures ok ==> Dependents(s, parentOp, |s.rows|)[c] < |s.rows|
                     && m.oldOp == s.rows[Dependents(s, parentOp, |s.rows|)[c]].m.op
      ensures !ok ==> NoManifest(s, rootOp, root)
      decreases |s.rows| - Position(s, parentOp), 1
    {
      hide *;
      ChildIs(s, parentOp, c);
      ValidIs();
      WalkedSeen(s, rootOp, root, mint, members, seen, next);
      EntryWalked(s, rootOp, root, members, parentOp, parent, relative, depth);
      EntrySound(s, rootOp, root, members, parentOp, parent, relative, depth);
      var i := Dependents(s, parentOp, |s.rows|)[c];
      var child := s.rows[i].m;
      m := Born(parent, relative, depth, child, mint(next));
      if !ChildOk(s, i, parent) || !ValidObjectId(child.obj) {
        ChildFails(s, rootOp, root, parentOp, parent, i);
        return false, m;
      }
      if child.obj in seen {
        DuplicateFails(s, rootOp, root, mint, members, seen, next, parentOp, parent, c);
        return false, m;
      }
      var b := Born(parent, relative, depth, child, mint(next));
      if !BlobOk(child) {
        ChildFails(s, rootOp, root, parentOp, parent, i);
        return false, m;
      }
      BornIs(parent, relative, depth, child, mint(next));
      BornCreated(s, i, parentOp, parent, relative, depth, mint(next), b);
      ChildFollowed(s, rootOp, root, parentOp, parent, i, b);
      if child.otype == Folder {
        m := b;
        ok := GatherFolder(parentOp, parent, relative, depth, i, b);
      } else {
        ghost var before := members;
        var r;
        ok, r := CollectChain(b, parentOp);
        m := r;
        if !ok {
          return;
        }
        FoundAt(s, r, |r.chain|);
        CompletesIf(b, r);
        ChildJoins(parentOp, parent, relative, depth, i, r);
        RequiredNext(s, rootOp, root, members, r);
        seen, next, members := seen + {child.obj}, next + 1, members + [r];
        ValidIf();
        NoteExhausted(s, before, r);
        NothingYet(s, members);
        NothingLater(s, members, Position(s, r.oldOp));
      }
    }

    /** A new folder and everything below it. */
    method GatherFolder(parentOp: Uuid, parent: Uuid, relative: Path, depth: nat, i: nat, m: Member) returns (ok: bool)
      requires Valid() && ValidObjectId(root) && Position(s, parentOp) < |s.rows|
      requires Entry(rootOp, root, members, parentOp, parent, relative, depth) && AllRequired(s, rootOp, root, members)
      requires i < |s.rows| && ChildOk(s, i, parent) && parentOp in Deps(s.rows[i].m) && BlobOk(s.rows[i].m)
               && s.rows[i].m.otype == Folder
      requires ValidObjectId(s.rows[i].m.obj) && s.rows[i].m.obj !in seen && Required(s, rootOp, root, m)
      requires m == Born(parent, relative, depth, s.rows[i].m, mint(next))
      modifies this
      ensures ok ==> Valid() && old(members) + [m] <= members && AllRequired(s, rootOp, root, members)
      ensures ok ==> MemberExhausted(s, members, m) && ExhaustedFrom(s, members, |old(members)| + 1)
      ensures ok ==> CreatedBy(s, m, parentOp) && Position(s, parentOp) < Position(s, m.oldOp)
      ensures ok ==> LaterFrom(s, members, |old(members)| + 1, Position(s, m.oldOp)) && m.oldOp == s.rows[i].m.op
      ensures !ok ==> NoManifest(s, rootOp, root)
      decreases |s.rows| - Position(s, parentOp), 0
    {
      hide *;
      var child := s.rows[i].m;
      ValidIs();
      WalkedSeen(s, rootOp, root, mint, members, seen, next);
      EntrySound(s, rootOp, root, members, parentOp, parent, relative, depth);
      BornIs(parent, relative, depth, child, mint(next));
      BornCreated(s, i, parentOp, parent, relative, depth, mint(next), m);
      CompletesIf(m, m);
      ChildJoins(parentOp, parent, relative, depth, i, m);
      RequiredNext(s, rootOp, root, members, m);
      NewFolderHasNone(s, rootOp, root, mint, members, seen, next, parentOp, i, m);
      seen, next, members := seen + {child.obj}, next + 1, members + [m];
      ValidIf();
      EntryBelow(rootOp, root, members, m);
      ok := WalkFolder(child.op, child.obj, relative + [child.name], depth + 1);
      if ok {
        FolderExhausted(s, members, m);
      }
    }
  }
}
