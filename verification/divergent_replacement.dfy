/** From a plan to its transaction: the shape the client validates, the operations retired and the creates that take
    their place. */
module DivergentReplacement {
  import opened Ids
  import opened Naming
  import opened Outbox
  import opened RecursiveRecovery
  import opened DivergentPlan

  // ---------------------------------------------------------------- reading a plan

  lemma PlannedIs(s: State, applied: map<Uuid, Uuid>, root: Uuid, recoveredRoot: Uuid, mint: nat -> Uuid, k: nat,
                  cs: seq<Candidate>, man: TreeManifest)
    requires Planned(s, applied, root, recoveredRoot, mint, k, cs, man)
    ensures |man.members| == |cs| && IdsApart(man.members, root, recoveredRoot)
            && DependentsClosed(s, root, recoveredRoot, man)
    ensures PlannedSoFar(s, applied, man.operation, root, recoveredRoot, mint, k, cs, man.members)
  {
    hide IdsApart, DependentsClosed, MemberPlanned;
  }

  lemma PlanAt(s: State, applied: map<Uuid, Uuid>, root: Uuid, recoveredRoot: Uuid, mint: nat -> Uuid, k: nat,
               cs: seq<Candidate>, man: TreeManifest, i: nat)
    returns (parentOp: Uuid)
    requires Planned(s, applied, root, recoveredRoot, mint, k, cs, man) && i < |man.members|
    ensures |man.members| == |cs| && CandidateOk(cs[i]) && FromCandidate(cs[i], man.members[i])
    ensures man.members[i].depth == |man.members[i].relative|
    ensures PlacedUnder(man.members, man.operation, root, recoveredRoot, i, parentOp)
            && Origin(s, applied, mint, k, man.members[i], parentOp)
  {
    hide IdsApart, DependentsClosed, CandidateOk, FromCandidate, PlacedUnder, Origin;
    assert MemberPlanned(s, applied, man.operation, root, recoveredRoot, mint, k, cs[i], man.members, i);
    parentOp :| PlacedUnder(man.members, man.operation, root, recoveredRoot, i, parentOp)
        && Origin(s, applied, mint, k, man.members[i], parentOp);
  }

  lemma Apart(ms: seq<TreeMember>, root: Uuid, recoveredRoot: Uuid, i: nat, j: nat)
    requires IdsApart(ms, root, recoveredRoot) && i < |ms| && j < |ms|
    ensures i != j ==> ms[i].source != ms[j].source && ms[i].recovered != ms[j].recovered && ms[i].newOp != ms[j].newOp
    ensures ms[i].source != root && ms[i].recovered != recoveredRoot
  {
  }

  lemma DrawnIs(s: State, root: Uuid, recoveredRoot: Uuid, newRoot: Uuid, cs: seq<Candidate>, mint: nat -> Uuid,
                x: Uuid, k: nat)
    requires MintNew(s, root, recoveredRoot, newRoot, cs, mint) && DrawnBelow(mint, x, k)
    ensures ValidOperationId(x) && !HasOp(s, |s.rows|, x) && x != root && x != recoveredRoot && x != newRoot
            && x !in s.baselines
    ensures (forall i :: 0 <= i < |cs| ==> cs[i].obj != x) && (forall i :: 0 <= i < |s.rows| ==> s.rows[i].m.obj != x)
  {
    var j: nat :| j < k && x == mint(j);
    hide ValidOperationId, HasOp;
    assert ValidOperationId(mint(j));
  }

  lemma OriginIs(s: State, applied: map<Uuid, Uuid>, mint: nat -> Uuid, k: nat, m: TreeMember, parentOp: Uuid)
    requires Origin(s, applied, mint, k, m, parentOp)
    ensures DrawnBelow(mint, m.newOp, k)
    ensures m.revision > 0 ==> KnownMember(s, applied, m) && DrawnBelow(mint, m.recovered, k)
    ensures m.revision == 0 ==> LocalMember(s, m, parentOp)
  {
    hide DrawnBelow, KnownMember, LocalMember;
  }

  lemma LocalIs(s: State, m: TreeMember, parentOp: Uuid)
    requires LocalMember(s, m, parentOp)
    ensures m.revision == 0 && m.source !in s.baselines && LocalQueued(s, AsQueued(m), parentOp)
    ensures m.recovered == m.source && m.recoveredBlob == m.sourceBlob
  {
    hide LocalQueued, AsQueued;
  }

  lemma KnownIs(s: State, applied: map<Uuid, Uuid>, m: TreeMember)
    requires KnownMember(s, applied, m)
    ensures m.revision > 0 && ValidOperationId(m.sourceOp) && !OpenFor(s, m.source) && m.recoveredBlob == []
            && m.createBlob == [] && m.chain == []
    ensures m.source in s.baselines && s.baselines[m.source] == m.revision
  {
    hide OpenFor, ValidOperationId;
  }

  // ---------------------------------------------------------------- one to one

  /** The index of the member with this old identity; |ms| when there is none. */
  function FindSource(ms: seq<TreeMember>, p: Uuid, n: nat): (j: nat)
    requires n <= |ms|
    ensures j < n ==> ms[j].source == p
    ensures j >= n ==> j == |ms| && forall i :: 0 <= i < n ==> ms[i].source != p
  {
    if n == 0 then |ms| else if ms[n - 1].source == p then n - 1 else FindSource(ms, p, n - 1)
  }

  /** Where the plan sends an identity of the old tree. */
  function Image(man: TreeManifest, root: Uuid, recoveredRoot: Uuid, p: Uuid): Uuid {
    if p == root then recoveredRoot
    else
      var j := FindSource(man.members, p, |man.members|);
      if j < |man.members| then man.members[j].recovered else p
  }

  predicate InTree(man: TreeManifest, root: Uuid, p: Uuid) {
    p == root || exists i :: 0 <= i < |man.members| && man.members[i].source == p
  }

  lemma ImageOf(man: TreeManifest, root: Uuid, recoveredRoot: Uuid, i: nat)
    requires IdsApart(man.members, root, recoveredRoot) && i < |man.members|
    ensures Image(man, root, recoveredRoot, man.members[i].source) == man.members[i].recovered
  {
    var j := FindSource(man.members, man.members[i].source, |man.members|);
    Apart(man.members, root, recoveredRoot, i, i);
    assert j < |man.members|;
    Apart(man.members, root, recoveredRoot, i, j);
    hide IdsApart, FindSource;
  }

  /** A plan maps the old tree's identities one to one, keeping every parent; members the server knows get identities
      that are new to the outbox, the baselines and the old tree, the others keep theirs and their bytes. */
  lemma PlanIsOneToOne(s: State, applied: map<Uuid, Uuid>, root: Uuid, recoveredRoot: Uuid, newRoot: Uuid,
                       mint: nat -> Uuid, k: nat, cs: seq<Candidate>, man: TreeManifest)
    requires Planned(s, applied, root, recoveredRoot, mint, k, cs, man)
             && MintNew(s, root, recoveredRoot, newRoot, cs, mint)
    ensures Image(man, root, recoveredRoot, root) == recoveredRoot
    ensures forall p, q :: InTree(man, root, p) && InTree(man, root, q) && p != q ==>
              Image(man, root, recoveredRoot, p) != Image(man, root, recoveredRoot, q)
    ensures forall i :: 0 <= i < |man.members| ==>
              var m := man.members[i];
              && Image(man, root, recoveredRoot, m.source) == m.recovered
              && Image(man, root, recoveredRoot, m.sourceParent) == m.recoveredParent
              && m.name == cs[i].name && m.depth == cs[i].depth && m.relative == cs[i].relative
              && m.otype == cs[i].otype
              && (m.revision == 0 ==> m.recovered == m.source && m.recoveredBlob == cs[i].blob)
              && (m.revision > 0 ==> !InTree(man, root, m.recovered) && m.recovered !in s.baselines
                                     && forall r :: 0 <= r < |s.rows| ==> s.rows[r].m.obj != m.recovered)
  {
    hide *;
    PlannedIs(s, applied, root, recoveredRoot, mint, k, cs, man);
    RootImage(man, root, recoveredRoot);
    forall p, q | InTree(man, root, p) && InTree(man, root, q) && p != q
      ensures Image(man, root, recoveredRoot, p) != Image(man, root, recoveredRoot, q)
    {
      ImagesDiffer(man, root, recoveredRoot, p, q);
    }
    forall i | 0 <= i < |man.members|
      ensures var m := man.members[i];
              && Image(man, root, recoveredRoot, m.source) == m.recovered
              && Image(man, root, recoveredRoot, m.sourceParent) == m.recoveredParent
              && m.name == cs[i].name && m.depth == cs[i].depth && m.relative == cs[i].relative
              && m.otype == cs[i].otype
              && (m.revision == 0 ==> m.recovered == m.source && m.recoveredBlob == cs[i].blob)
              && (m.revision > 0 ==> !InTree(man, root, m.recovered) && m.recovered !in s.baselines
                                     && forall r :: 0 <= r < |s.rows| ==> s.rows[r].m.obj != m.recovered)
    {
      MemberImage(s, applied, root, recoveredRoot, newRoot, mint, k, cs, man, i);
    }
  }

  lemma RootImage(man: TreeManifest, root: Uuid, recoveredRoot: Uuid)
    ensures Image(man, root, recoveredRoot, root) == recoveredRoot
  {
  }

  lemma ImagesDiffer(man: TreeManifest, root: Uuid, recoveredRoot: Uuid, p: Uuid, q: Uuid)
    requires IdsApart(man.members, root, recoveredRoot) && InTree(man, root, p) && InTree(man, root, q) && p != q
    ensures Image(man, root, recoveredRoot, p) != Image(man, root, recoveredRoot, q)
  {
    var i := InTreeAt(man, root, p);
    var j := InTreeAt(man, root, q);
    hide *;
    RootImage(man, root, recoveredRoot);
    if p != root {
      ImageOf(man, root, recoveredRoot, i);
      Apart(man.members, root, recoveredRoot, i, i);
    }
    if q != root {
      ImageOf(man, root, recoveredRoot, j);
      Apart(man.members, root, recoveredRoot, j, j);
    }
    if p != root && q != root {
      Apart(man.members, root, recoveredRoot, i, j);
    }
  }

  lemma InTreeAt(man: TreeManifest, root: Uuid, p: Uuid) returns (i: nat)
    requires InTree(man, root, p)
    ensures p != root ==> i < |man.members| && man.members[i].source == p
  {
    if p == root {
      i := 0;
    } else {
      i :| 0 <= i < |man.members| && man.members[i].source == p;
    }
  }

  lemma PlacedImage(man: TreeManifest, root: Uuid, recoveredRoot: Uuid, i: nat, parentOp: Uuid)
    requires IdsApart(man.members, root, recoveredRoot) && i < |man.members|
    requires PlacedUnder(man.members, man.operation, root, recoveredRoot, i, parentOp)
    ensures Image(man, root, recoveredRoot, man.members[i].sourceParent) == man.members[i].recoveredParent
  {
    RootImage(man, root, recoveredRoot);
    hide Image, IdsApart;
    if j :| 0 <= j < i && Below(man.members[j], man.members[i]) && parentOp == man.members[j].sourceOp {
      ImageOf(man, root, recoveredRoot, j);
    }
  }

  lemma MemberImage(s: State, applied: map<Uuid, Uuid>, root: Uuid, recoveredRoot: Uuid, newRoot: Uuid,
                    mint: nat -> Uuid, k: nat, cs: seq<Candidate>, man: TreeManifest, i: nat)
    requires Planned(s, applied, root, recoveredRoot, mint, k, cs, man)
             && MintNew(s, root, recoveredRoot, newRoot, cs, mint) && i < |man.members|
    ensures |man.members| == |cs|
    ensures var m := man.members[i];
            && Image(man, root, recoveredRoot, m.source) == m.recovered
            && Image(man, root, recoveredRoot, m.sourceParent) == m.recoveredParent
            && m.name == cs[i].name && m.depth == cs[i].depth && m.relative == cs[i].relative && m.otype == cs[i].otype
            && (m.revision == 0 ==> m.recovered == m.source && m.recoveredBlob == cs[i].blob)
            && (m.revision > 0 ==> !InTree(man, root, m.recovered) && m.recovered !in s.baselines
                                   && forall r :: 0 <= r < |s.rows| ==> s.rows[r].m.obj != m.recovered)
  {
    hide *;
    var m := man.members[i];
    PlannedIs(s, applied, root, recoveredRoot, mint, k, cs, man);
    var parentOp := PlanAt(s, applied, root, recoveredRoot, mint, k, cs, man, i);
    FromAll(cs[i], m);
    ImageOf(man, root, recoveredRoot, i);
    PlacedImage(man, root, recoveredRoot, i, parentOp);
    OriginIs(s, applied, mint, k, m, parentOp);
    if m.revision == 0 {
      LocalIs(s, m, parentOp);
    } else {
      DrawnIs(s, root, recoveredRoot, newRoot, cs, mint, m.recovered, k);
      NotInTree(s, applied, root, recoveredRoot, mint, k, cs, man, m.recovered);
    }
  }

  lemma FromAll(c: Candidate, m: TreeMember)
    requires FromCandidate(c, m)
    ensures m.source == c.obj && m.sourceParent == c.parent && m.name == c.name && m.relative == c.relative
            && m.depth == c.depth
    ensures m.otype == c.otype && m.sourceBlob == c.blob && m.device == c.device && m.inode == c.inode
  {
  }

  lemma NotInTree(s: State, applied: map<Uuid, Uuid>, root: Uuid, recoveredRoot: Uuid, mint: nat -> Uuid, k: nat,
                  cs: seq<Candidate>, man: TreeManifest, x: Uuid)
    requires Planned(s, applied, root, recoveredRoot, mint, k, cs, man) && x != root
             && forall i :: 0 <= i < |cs| ==> cs[i].obj != x
    ensures !InTree(man, root, x)
  {
    forall i | 0 <= i < |man.members|
      ensures man.members[i].source != x
    {
      var parentOp := PlanAt(s, applied, root, recoveredRoot, mint, k, cs, man, i);
      FromAll(cs[i], man.members[i]);
    }
    hide Planned;
  }

  // ---------------------------------------------------------------- the shape the client validates

  predicate TreeMemberOk(m: TreeMember) {
    && CandidateOk(Candidate(m.source, m.sourceParent, m.otype, m.name, m.relative, m.depth, m.device, m.inode,
                             m.sourceBlob))
    && ValidObjectId(m.recovered) && ValidObjectId(m.recoveredParent) && ValidOperationId(m.sourceOp)
    && ValidOperationId(m.newOp)
    && m.sourceOp != m.newOp && m.revision <= MAX_INT64
    && (if m.revision == 0 then
          m.recovered == m.source
          && (if m.otype == Folder then m.createBlob == [] && m.recoveredBlob == []
              else m.createBlob != [] && m.recoveredBlob == m.sourceBlob)
        else
          m.recovered != m.source && m.createBlob == [] && m.chain == []
          && (if m.otype == Folder then m.recoveredBlob == [] else m.recoveredBlob != []))
  }

  /** The identities of member i are new, and its parent is the recovered root or the image of a member before it. */
  predicate MemberFits(man: TreeManifest, recoveredRoot: Uuid, i: nat)
    requires i < |man.members|
  {
    var m := man.members[i];
    && m.recovered != recoveredRoot && m.newOp != man.newRoot
    && (forall j :: 0 <= j < i ==>
          man.members[j].source != m.source && man.members[j].recovered != m.recovered
              && man.members[j].newOp != m.newOp)
    && (if m.depth == 1 then m.recoveredParent == recoveredRoot
        else exists j :: 0 <= j < i && man.members[j].source == m.sourceParent
              && man.members[j].recovered == m.recoveredParent)
  }

  predicate TreeShape(man: TreeManifest, recoveredRoot: Uuid) {
    && ValidOperationId(man.operation) && ValidOperationId(man.newRoot) && man.operation != man.newRoot
    && ValidObjectId(recoveredRoot)
    && 0 < |man.members| <= MAX_MEMBERS
    && forall i :: 0 <= i < |man.members| ==> TreeMemberOk(man.members[i]) && MemberFits(man, recoveredRoot, i)
  }

  ghost predicate Collected(ms: seq<TreeMember>, n: nat, sources: set<Uuid>, recovered: set<Uuid>, ops: set<Uuid>,
                            images: map<Uuid, Uuid>, recoveredRoot: Uuid, newRoot: Uuid)
    requires n <= |ms|
  {
    && (forall p :: p in sources <==> exists j :: 0 <= j < n && ms[j].source == p)
    && (forall p :: p in recovered <==> p == recoveredRoot || exists j :: 0 <= j < n && ms[j].recovered == p)
    && (forall p :: p in ops <==> p == newRoot || exists j :: 0 <= j < n && ms[j].newOp == p)
    && images.Keys == sources
    && forall j :: 0 <= j < n ==> ms[j].source in images && images[ms[j].source] == ms[j].recovered
  }

  lemma CollectNext(ms: seq<TreeMember>, n: nat, sources: set<Uuid>, recovered: set<Uuid>, ops: set<Uuid>,
                    images: map<Uuid, Uuid>, recoveredRoot: Uuid, newRoot: Uuid)
    requires n < |ms| && Collected(ms, n, sources, recovered, ops, images, recoveredRoot, newRoot)
             && ms[n].source !in sources
    ensures Collected(ms, n + 1, sources + {ms[n].source}, recovered + {ms[n].recovered}, ops + {ms[n].newOp},
                      images[ms[n].source := ms[n].recovered],
                      recoveredRoot, newRoot)
  {
  }

  lemma CollectedParent(ms: seq<TreeMember>, n: nat, sources: set<Uuid>, recovered: set<Uuid>, ops: set<Uuid>,
                        images: map<Uuid, Uuid>, recoveredRoot: Uuid, newRoot: Uuid, p: Uuid, r: Uuid)
    requires n <= |ms| && Collected(ms, n, sources, recovered, ops, images, recoveredRoot, newRoot)
    ensures p in images && images[p] == r
            <==> p in images && exists j :: 0 <= j < n && ms[j].source == p && ms[j].recovered == images[p]
                                 && images[p] == r
    ensures (exists j :: 0 <= j < n && ms[j].source == p && ms[j].recovered == r) ==> p in images && images[p] == r
    ensures p in images && images[p] == r ==> exists j :: 0 <= j < n && ms[j].source == p && ms[j].recovered == r
  {
    if p in images {
      var j :| 0 <= j < n && ms[j].source == p;
      assert images[ms[j].source] == ms[j].recovered;
    }
  }

  lemma FitsBy(man: TreeManifest, i: nat, sources: set<Uuid>, recovered: set<Uuid>, ops: set<Uuid>, images: map<Uuid,
               Uuid>, recoveredRoot: Uuid)
    requires i < |man.members| && Collected(man.members, i, sources, recovered, ops, images, recoveredRoot, man.newRoot)
    ensures var m := man.members[i];
            MemberFits(man, recoveredRoot, i) <==>
              && m.source !in sources && m.recovered !in recovered && m.newOp !in ops
              && (if m.depth == 1 then m.recoveredParent == recoveredRoot
                  else m.sourceParent in images && images[m.sourceParent] == m.recoveredParent)
  {
    var m := man.members[i];
    CollectedParent(man.members, i, sources, recovered, ops, images, recoveredRoot, man.newRoot, m.sourceParent,
                    m.recoveredParent);
  }

  lemma NothingCollected(ms: seq<TreeMember>, recoveredRoot: Uuid, newRoot: Uuid)
    ensures Collected(ms, 0, {}, {recoveredRoot}, {newRoot}, map[], recoveredRoot, newRoot)
  {
  }

  lemma ShapeIs(man: TreeManifest, recoveredRoot: Uuid)
    ensures TreeShape(man, recoveredRoot) <==>
            && ValidOperationId(man.operation) && ValidOperationId(man.newRoot) && man.operation != man.newRoot
            && ValidObjectId(recoveredRoot)
            && 0 < |man.members| <= MAX_MEMBERS
            && forall i :: 0 <= i < |man.members| ==> TreeMemberOk(man.members[i]) && MemberFits(man, recoveredRoot, i)
  {
    hide TreeMemberOk, MemberFits, ValidOperationId, ValidObjectId;
  }

  /** Accepts exactly the well-shaped plans. */
  method ValidateTreeShape(man: TreeManifest, recoveredRoot: Uuid) returns (ok: bool)
    ensures ok <==> TreeShape(man, recoveredRoot)
  {
    hide *;
    ShapeIs(man, recoveredRoot);
    if !ValidOperationId(man.operation) || !ValidOperationId(man.newRoot) || man.operation == man.newRoot
        || !ValidObjectId(recoveredRoot)
       || |man.members| == 0 || |man.members| > MAX_MEMBERS {
      return false;
    }
    var sources: set<Uuid>, recovered: set<Uuid>, ops: set<Uuid> := {}, {recoveredRoot}, {man.newRoot};
    var images: map<Uuid, Uuid> := map[];
    NothingCollected(man.members, recoveredRoot, man.newRoot);
    for i := 0 to |man.members|
      invariant Collected(man.members, i, sources, recovered, ops, images, recoveredRoot, man.newRoot)
      invariant forall j :: 0 <= j < i ==> TreeMemberOk(man.members[j]) && MemberFits(man, recoveredRoot, j)
    {
      var m := man.members[i];
      FitsBy(man, i, sources, recovered, ops, images, recoveredRoot);
      if !TreeMemberOk(m) || m.source in sources || m.recovered in recovered || m.newOp in ops {
        return false;
      }
      if m.depth == 1 {
        if m.recoveredParent != recoveredRoot {
          return false;
        }
      } else if m.sourceParent !in images || images[m.sourceParent] != m.recoveredParent {
        return false;
      }
      CollectNext(man.members, i, sources, recovered, ops, images, recoveredRoot, man.newRoot);
      sources, recovered, ops := sources + {m.source}, recovered + {m.recovered}, ops + {m.newOp};
      images := images[m.source := m.recovered];
    }
    ok := true;
  }

  // ---------------------------------------------------------------- a plan, once its notes are rekeyed, has that shape

  predicate RekeyedMember(a: TreeMember, b: TreeMember) {
    if a.revision > 0 && a.otype == Note then
      b == a.(recoveredBlob := b.recoveredBlob) && |b.recoveredBlob| == HASH_SIZE else b == a
  }

  /** The plan with the hash of every known note's rekeyed bytes filled in. */
  ghost predicate Rekeyed(man: TreeManifest, full: TreeManifest) {
    && full.operation == man.operation && full.newRoot == man.newRoot && |full.members| == |man.members|
    && forall i :: 0 <= i < |man.members| ==> RekeyedMember(man.members[i], full.members[i])
  }

  lemma RekeyedAt(man: TreeManifest, full: TreeManifest, i: nat)
    requires Rekeyed(man, full) && i < |man.members|
    ensures |full.members| == |man.members| && full.operation == man.operation && full.newRoot == man.newRoot
    ensures var a, b := man.members[i], full.members[i];
            && b == a.(recoveredBlob := b.recoveredBlob)
            && (if a.revision > 0 && a.otype == Note then |b.recoveredBlob| == HASH_SIZE
                else b.recoveredBlob == a.recoveredBlob)
  {
  }

  lemma LocalShape(s: State, m: TreeMember, parentOp: Uuid, c: Candidate)
    requires RowsValid(s) && LocalMember(s, m, parentOp) && CandidateOk(c) && FromCandidate(c, m)
    ensures ValidOperationId(m.sourceOp) && HasOp(s, |s.rows|, m.sourceOp) && m.recovered == m.source
    ensures if m.otype == Folder then m.createBlob == [] && m.recoveredBlob == []
            else m.createBlob != [] && m.recoveredBlob == m.sourceBlob
  {
    var q := AsQueued(m);
    var i := IndexOf(s, q.oldOp, |s.rows|);
    assert CreateRow(s, i, q, parentOp);
    assert ValidMutation(s.rows[i].m);
    hide ValidOperationId, ValidObjectId, ValidComponent, ValidRelative, Deps, IndexOf;
  }

  lemma CandidateSame(c: Candidate, m: TreeMember)
    requires CandidateOk(c) && FromCandidate(c, m)
    ensures CandidateOk(Candidate(m.source, m.sourceParent, m.otype, m.name, m.relative, m.depth, m.device, m.inode,
                                  m.sourceBlob))
    ensures ValidObjectId(m.source) && ValidObjectId(m.sourceParent)
  {
    hide ValidObjectId, ValidComponent, ValidRelative;
  }

  lemma MemberOkIf(m: TreeMember)
    requires CandidateOk(Candidate(m.source, m.sourceParent, m.otype, m.name, m.relative, m.depth, m.device, m.inode,
                                   m.sourceBlob))
    requires ValidObjectId(m.recovered) && ValidObjectId(m.recoveredParent) && ValidOperationId(m.sourceOp)
             && ValidOperationId(m.newOp)
    requires m.sourceOp != m.newOp && m.revision <= MAX_INT64
    requires m.revision == 0 ==>
               m.recovered == m.source
               && (if m.otype == Folder then m.createBlob == [] && m.recoveredBlob == []
                   else m.createBlob != [] && m.recoveredBlob == m.sourceBlob)
    requires m.revision > 0 ==>
               m.recovered != m.source && m.createBlob == [] && m.chain == []
               && (if m.otype == Folder then m.recoveredBlob == [] else m.recoveredBlob != [])
    ensures TreeMemberOk(m)
  {
    hide CandidateOk, ValidObjectId, ValidOperationId;
  }

  lemma OperationIsObject(x: Uuid)
    requires ValidOperationId(x)
    ensures ValidObjectId(x)
  {
  }

  /** What the planner's inputs promise beyond the outbox: baselines fit, and no drawn identity is an operation already
      applied. */
  ghost predicate Sourced(s: State, applied: map<Uuid, Uuid>, root: Uuid, recoveredRoot: Uuid, newRoot: Uuid,
                          cs: seq<Candidate>, mint: nat -> Uuid) {
    && WellFormed(s) && RowsValid(s) && BaselinesStorable(s) && MintNew(s, root, recoveredRoot, newRoot, cs, mint)
    && forall id, k :: id in applied ==> applied[id] != mint(k)
  }

  lemma SourcedIs(s: State, applied: map<Uuid, Uuid>, root: Uuid, recoveredRoot: Uuid, newRoot: Uuid,
                  cs: seq<Candidate>, mint: nat -> Uuid)
    requires Sourced(s, applied, root, recoveredRoot, newRoot, cs, mint)
    ensures WellFormed(s) && RowsValid(s) && BaselinesStorable(s) && MintNew(s, root, recoveredRoot, newRoot, cs, mint)
  {
    hide WellFormed, RowsValid, BaselinesStorable, MintNew;
  }

  lemma AppliedDiffers(s: State, applied: map<Uuid, Uuid>, root: Uuid, recoveredRoot: Uuid, newRoot: Uuid,
                       cs: seq<Candidate>, mint: nat -> Uuid, m: TreeMember, k: nat)
    requires Sourced(s, applied, root, recoveredRoot, newRoot, cs, mint) && KnownMember(s, applied, m)
             && DrawnBelow(mint, m.newOp, k)
    ensures m.sourceOp != m.newOp && m.revision <= MAX_INT64
  {
    hide WellFormed, RowsValid, MintNew, ValidOperationId, OpenFor;
    var j: nat :| j < k && m.newOp == mint(j);
    assert applied[m.source] != mint(j);
  }

  lemma PlacedDepth(ms: seq<TreeMember>, op: Uuid, root: Uuid, recoveredRoot: Uuid, i: nat, parentOp: Uuid)
    requires i < |ms| && PlacedUnder(ms, op, root, recoveredRoot, i, parentOp)
             && forall j :: 0 <= j < i ==> ms[j].relative != []
    ensures |ms[i].relative| == 1 ==> ms[i].sourceParent == root && ms[i].recoveredParent == recoveredRoot
    ensures |ms[i].relative| != 1 ==>
              exists j :: 0 <= j < i && ms[j].source == ms[i].sourceParent && ms[j].recovered == ms[i].recoveredParent
  {
    if j :| 0 <= j < i && Below(ms[j], ms[i]) && parentOp == ms[j].sourceOp {
      assert ms[j].relative != [];
    }
  }

  lemma RelativeNotEmpty(s: State, applied: map<Uuid, Uuid>, root: Uuid, recoveredRoot: Uuid, mint: nat -> Uuid,
                         k: nat, cs: seq<Candidate>, man: TreeManifest, j: nat)
    requires Planned(s, applied, root, recoveredRoot, mint, k, cs, man) && j < |man.members|
    ensures man.members[j].relative != [] && man.members[j].depth == |man.members[j].relative|
  {
    var parentOp := PlanAt(s, applied, root, recoveredRoot, mint, k, cs, man, j);
    hide Planned, PlacedUnder, Origin;
    FromAll(cs[j], man.members[j]);
    RelativeOfCandidate(cs[j]);
  }

  lemma RelativeOfCandidate(c: Candidate)
    requires CandidateOk(c)
    ensures c.relative != []
  {
    hide ValidObjectId, ValidComponent;
  }

  lemma ParentImageValid(s: State, applied: map<Uuid, Uuid>, root: Uuid, recoveredRoot: Uuid, newRoot: Uuid,
                         mint: nat -> Uuid, k: nat, cs: seq<Candidate>, man: TreeManifest, i: nat)
    requires Sourced(s, applied, root, recoveredRoot, newRoot, cs, mint)
             && Planned(s, applied, root, recoveredRoot, mint, k, cs, man)
    requires i < |man.members|
    ensures ValidObjectId(man.members[i].recovered)
  {
    var m := man.members[i];
    hide *;
    SourcedIs(s, applied, root, recoveredRoot, newRoot, cs, mint);
    PlannedIs(s, applied, root, recoveredRoot, mint, k, cs, man);
    var parentOp := PlanAt(s, applied, root, recoveredRoot, mint, k, cs, man, i);
    CandidateSame(cs[i], m);
    OriginIs(s, applied, mint, k, m, parentOp);
    if m.revision == 0 {
      LocalIs(s, m, parentOp);
    } else {
      DrawnIs(s, root, recoveredRoot, newRoot, cs, mint, m.recovered, k);
      OperationIsObject(m.recovered);
    }
  }

  lemma MemberShaped(s: State, applied: map<Uuid, Uuid>, root: Uuid, recoveredRoot: Uuid, newRoot: Uuid,
                     mint: nat -> Uuid, k: nat, cs: seq<Candidate>, man: TreeManifest, full: TreeManifest, i: nat)
    requires Sourced(s, applied, root, recoveredRoot, newRoot, cs, mint)
             && Planned(s, applied, root, recoveredRoot, mint, k, cs, man)
    requires Rekeyed(man, full) && ValidObjectId(recoveredRoot) && man.newRoot == newRoot && i < |man.members|
    ensures |full.members| == |man.members| && TreeMemberOk(full.members[i]) && full.members[i].newOp != newRoot
  {
    var m, f := man.members[i], full.members[i];
    hide *;
    RekeyedAt(man, full, i);
    SourcedIs(s, applied, root, recoveredRoot, newRoot, cs, mint);
    PlannedIs(s, applied, root, recoveredRoot, mint, k, cs, man);
    var parentOp := PlanAt(s, applied, root, recoveredRoot, mint, k, cs, man, i);
    FromAll(cs[i], m);
    CandidateSame(cs[i], m);
    OriginIs(s, applied, mint, k, m, parentOp);
    DrawnIs(s, root, recoveredRoot, newRoot, cs, mint, m.newOp, k);
    ParentImageValid(s, applied, root, recoveredRoot, newRoot, mint, k, cs, man, i);
    forall j | 0 <= j < i
      ensures man.members[j].relative != []
    {
      RelativeNotEmpty(s, applied, root, recoveredRoot, mint, k, cs, man, j);
    }
    PlacedDepth(man.members, man.operation, root, recoveredRoot, i, parentOp);
    if |m.relative| != 1 {
      var j :| 0 <= j < i && man.members[j].source == m.sourceParent && man.members[j].recovered == m.recoveredParent;
      ParentImageValid(s, applied, root, recoveredRoot, newRoot, mint, k, cs, man, j);
    }
    if m.revision == 0 {
      LocalShape(s, m, parentOp, cs[i]);
    } else {
      KnownIs(s, applied, m);
      AppliedDiffers(s, applied, root, recoveredRoot, newRoot, cs, mint, m, k);
      DrawnIs(s, root, recoveredRoot, newRoot, cs, mint, m.recovered, k);
    }
    MemberOkIf(f);
  }

  lemma MemberFitted(s: State, applied: map<Uuid, Uuid>, root: Uuid, recoveredRoot: Uuid, mint: nat -> Uuid, k: nat,
                     cs: seq<Candidate>, man: TreeManifest, full: TreeManifest, i: nat)
    requires Planned(s, applied, root, recoveredRoot, mint, k, cs, man) && Rekeyed(man, full) && i < |man.members|
    requires man.members[i].newOp != man.newRoot
    ensures |full.members| == |man.members| && MemberFits(full, recoveredRoot, i)
  {
    var m := man.members[i];
    hide *;
    RekeyedAt(man, full, i);
    PlannedIs(s, applied, root, recoveredRoot, mint, k, cs, man);
    var parentOp := PlanAt(s, applied, root, recoveredRoot, mint, k, cs, man, i);
    forall j | 0 <= j < i
      ensures man.members[j].relative != []
      ensures full.members[j].source == man.members[j].source && full.members[j].recovered == man.members[j].recovered
              && full.members[j].newOp == man.members[j].newOp
      ensures man.members[j].source != m.source && man.members[j].recovered != m.recovered
              && man.members[j].newOp != m.newOp
    {
      RelativeNotEmpty(s, applied, root, recoveredRoot, mint, k, cs, man, j);
      RekeyedAt(man, full, j);
      Apart(man.members, root, recoveredRoot, j, i);
    }
    RelativeNotEmpty(s, applied, root, recoveredRoot, mint, k, cs, man, i);
    PlacedDepth(man.members, man.operation, root, recoveredRoot, i, parentOp);
    Apart(man.members, root, recoveredRoot, i, i);
    FitsIf(full, recoveredRoot, i);
  }

  lemma FitsIf(man: TreeManifest, recoveredRoot: Uuid, i: nat)
    requires i < |man.members|
    requires man.members[i].recovered != recoveredRoot && man.members[i].newOp != man.newRoot
    requires forall j :: 0 <= j < i ==>
               man.members[j].source != man.members[i].source && man.members[j].recovered != man.members[i].recovered
               && man.members[j].newOp != man.members[i].newOp
    requires if man.members[i].depth == 1 then man.members[i].recoveredParent == recoveredRoot
             else exists j :: 0 <= j < i && man.members[j].source == man.members[i].sourceParent
                   && man.members[j].recovered == man.members[i].recoveredParent
    ensures MemberFits(man, recoveredRoot, i)
  {
  }

  /** A plan whose known notes were rekeyed passes the shape validation. */
  lemma PlanShaped(s: State, applied: map<Uuid, Uuid>, root: Uuid, recoveredRoot: Uuid, newRoot: Uuid,
                   mint: nat -> Uuid, k: nat, cs: seq<Candidate>, man: TreeManifest, full: TreeManifest)
    requires Sourced(s, applied, root, recoveredRoot, newRoot, cs, mint)
             && Planned(s, applied, root, recoveredRoot, mint, k, cs, man)
    requires Rekeyed(man, full) && man.newRoot == newRoot && 0 < |man.members| <= MAX_MEMBERS
    requires ValidOperationId(man.operation) && ValidOperationId(newRoot) && man.operation != newRoot
             && ValidObjectId(recoveredRoot)
    ensures TreeShape(full, recoveredRoot)
  {
    hide *;
    RekeyedAt(man, full, 0);
    forall i | 0 <= i < |full.members|
      ensures TreeMemberOk(full.members[i]) && MemberFits(full, recoveredRoot, i)
    {
      RekeyedAt(man, full, i);
      MemberShaped(s, applied, root, recoveredRoot, newRoot, mint, k, cs, man, full, i);
      MemberFitted(s, applied, root, recoveredRoot, mint, k, cs, man, full, i);
    }
    ShapeIs(full, recoveredRoot);
  }
}
