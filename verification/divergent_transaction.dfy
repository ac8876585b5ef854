/** The transaction that ends a divergent move: local operations are retired, and creates rebuild the tree under the
    recovered root. */
module DivergentTransaction {
  import opened Ids
  import opened Naming
  import opened Optional
  import opened Outbox
  import opened OutboxExtend
  import opened OutboxProgress
  import opened OutboxRetire
  import opened RecursiveRecovery
  import opened RecursiveReplacement
  import opened DivergentPlan
  import opened DivergentReplacement

  function TreeRoot(man: TreeManifest, recoveredRoot: Uuid, rootName: string): Mutation {
    Mutation(man.newRoot, Create, recoveredRoot, Folder, 0, Some(CONFLICT_RECOVERED), rootName, [], None, [])
  }

  /** The first member with this new identity, from index i on; |ms| when there is none. */
  function FindRecovered(ms: seq<TreeMember>, x: Uuid, i: nat): (j: nat)
    requires i <= |ms|
    ensures i <= j <= |ms| && (j < |ms| ==> ms[j].recovered == x) && forall k :: i <= k < j ==> ms[k].recovered != x
    decreases |ms| - i
  {
    if i == |ms| || ms[i].recovered == x then i else FindRecovered(ms, x, i + 1)
  }

  function TreeDependency(man: TreeManifest, m: TreeMember): Uuid {
    if m.depth <= 1 then man.newRoot
    else
      var j := FindRecovered(man.members, m.recoveredParent, 0);
      if j < |man.members| then man.members[j].newOp else man.newRoot
  }

  function TreeCreate(man: TreeManifest, m: TreeMember): Mutation {
    Mutation(m.newOp, Create, m.recovered, m.otype, 0, Some(m.recoveredParent), m.name,
             if m.otype == Note then m.recoveredBlob else [],
             Some(TreeDependency(man, m)), [])
  }

  function TreeCreates(man: TreeManifest, recoveredRoot: Uuid, rootName: string, n: nat): seq<Mutation>
    requires n <= |man.members|
  {
    if n == 0 then [TreeRoot(man, recoveredRoot, rootName)]
    else TreeCreates(man, recoveredRoot, rootName, n - 1) + [TreeCreate(man, man.members[n - 1])]
  }

  /** What is retired of a member: everything queued, if the server has never seen it. */
  function Retiring(m: TreeMember): set<Uuid> {
    if m.revision == 0 then {m.sourceOp} + ChainOps(m.chain) else {}
  }

  function LocalOps(ms: seq<TreeMember>, n: nat): set<Uuid>
    requires n <= |ms|
  {
    if n == 0 then {} else LocalOps(ms, n - 1) + Retiring(ms[n - 1])
  }

  // ---------------------------------------------------------------- the creates

  lemma {:induction false} CreateAt(man: TreeManifest, recoveredRoot: Uuid, rootName: string, n: nat, i: nat)
    requires i <= n <= |man.members|
    ensures |TreeCreates(man, recoveredRoot, rootName, n)| == n + 1
    ensures TreeCreates(man, recoveredRoot, rootName, n)[i]
            == if i == 0 then TreeRoot(man, recoveredRoot, rootName) else TreeCreate(man, man.members[i - 1])
  {
    hide TreeRoot, TreeCreate;
    if n > 0 {
      CreateAt(man, recoveredRoot, rootName, n - 1, if i < n then i else 0);
    }
  }

  lemma CreateIs(man: TreeManifest, m: TreeMember)
    ensures var c := TreeCreate(man, m);
            c.op == m.newOp && c.kind == Create && c.obj == m.recovered && c.parent == Some(m.recoveredParent)
                && c.name == m.name
            && c.otype == m.otype && c.blob == (if m.otype == Note then m.recoveredBlob else [])
            && c.dependency == Some(TreeDependency(man, m)) && Deps(c) == {TreeDependency(man, m)}
  {
    assert Deps(TreeCreate(man, m)) == {TreeDependency(man, m)};
    hide TreeDependency;
  }

  lemma RootCreateIs(man: TreeManifest, recoveredRoot: Uuid, rootName: string)
    ensures var c := TreeRoot(man, recoveredRoot, rootName);
            c.op == man.newRoot && c.kind == Create && c.obj == recoveredRoot && c.otype == Folder && Deps(c) == {}
  {
    assert Deps(TreeRoot(man, recoveredRoot, rootName)) == {};
  }

  lemma FitsAt(man: TreeManifest, recoveredRoot: Uuid, i: nat)
    requires TreeShape(man, recoveredRoot) && i < |man.members|
    ensures TreeMemberOk(man.members[i]) && MemberFits(man, recoveredRoot, i)
    ensures ValidOperationId(man.newRoot) && ValidObjectId(recoveredRoot)
  {
    hide TreeMemberOk, MemberFits, ValidOperationId, ValidObjectId;
  }

  lemma FitsIs(man: TreeManifest, recoveredRoot: Uuid, i: nat)
    requires i < |man.members| && MemberFits(man, recoveredRoot, i)
    ensures var m := man.members[i];
            && m.recovered != recoveredRoot && m.newOp != man.newRoot
            && (forall j :: 0 <= j < i ==>
                  man.members[j].recovered != m.recovered && man.members[j].newOp != m.newOp
                      && man.members[j].source != m.source)
            && (if m.depth == 1 then m.recoveredParent == recoveredRoot
                else exists j :: 0 <= j < i && man.members[j].source == m.sourceParent
                      && man.members[j].recovered == m.recoveredParent)
  {
  }

  lemma DepthAtLeastOne(m: TreeMember)
    requires TreeMemberOk(m)
    ensures m.depth >= 1 && ValidObjectId(m.recovered) && ValidObjectId(m.recoveredParent) && ValidOperationId(m.newOp)
            && ValidComponent(m.name)
  {
    hide ValidObjectId, ValidOperationId, ValidComponent, ValidRelative;
  }

  /** The create of member i waits for the create of its parent, which is the recovered root's or that of an earlier
      member. */
  lemma DependencyAt(man: TreeManifest, recoveredRoot: Uuid, i: nat) returns (j: nat)
    requires TreeShape(man, recoveredRoot) && i < |man.members|
    ensures j <= i
    ensures j == 0 ==> man.members[i].recoveredParent == recoveredRoot
                       && TreeDependency(man, man.members[i]) == man.newRoot
    ensures j > 0 ==> man.members[j - 1].recovered == man.members[i].recoveredParent
                      && TreeDependency(man, man.members[i]) == man.members[j - 1].newOp
  {
    var m := man.members[i];
    hide *;
    FitsAt(man, recoveredRoot, i);
    DepthAtLeastOne(m);
    DependencyOfMember(man, m);
    if m.depth == 1 {
      RootParent(man, recoveredRoot, i);
      j := 0;
    } else {
      var x := EarlierParent(man, recoveredRoot, i);
      FoundBefore(man.members, m.recoveredParent, x);
      j := FindRecovered(man.members, m.recoveredParent, 0) + 1;
    }
  }

  lemma RootParent(man: TreeManifest, recoveredRoot: Uuid, i: nat)
    requires i < |man.members| && MemberFits(man, recoveredRoot, i) && man.members[i].depth == 1
    ensures man.members[i].recoveredParent == recoveredRoot
  {
  }

  lemma EarlierParent(man: TreeManifest, recoveredRoot: Uuid, i: nat) returns (x: nat)
    requires i < |man.members| && MemberFits(man, recoveredRoot, i) && man.members[i].depth != 1
    ensures x < i && man.members[x].recovered == man.members[i].recoveredParent
  {
    x :| 0 <= x < i && man.members[x].source == man.members[i].sourceParent
        && man.members[x].recovered == man.members[i].recoveredParent;
  }

  lemma DependencyOfMember(man: TreeManifest, m: TreeMember)
    ensures var j := FindRecovered(man.members, m.recoveredParent, 0);
            TreeDependency(man, m) == if m.depth <= 1 || j >= |man.members| then man.newRoot else man.members[j].newOp
  {
    hide FindRecovered;
  }

  lemma FoundBefore(ms: seq<TreeMember>, x: Uuid, i: nat)
    requires i < |ms| && ms[i].recovered == x
    ensures var j := FindRecovered(ms, x, 0); j <= i && ms[j].recovered == x
  {
  }

  /** Every emitted create but the first waits for exactly one operation: the earlier create of its parent. */
  lemma CreatesWaitForParents(man: TreeManifest, recoveredRoot: Uuid, rootName: string, i: nat) returns (j: nat)
    requires TreeShape(man, recoveredRoot) && i < |man.members|
    ensures var ms := TreeCreates(man, recoveredRoot, rootName, |man.members|);
            && j <= i < |ms| - 1 && ms[i + 1].parent == Some(ms[j].obj) && Deps(ms[i + 1]) == {ms[j].op}
            && ms[i + 1].obj == man.members[i].recovered && ms[i + 1].name == man.members[i].name
            && ms[i + 1].otype == man.members[i].otype
  {
    hide *;
    j := DependencyAt(man, recoveredRoot, i);
    CreateAt(man, recoveredRoot, rootName, |man.members|, i + 1);
    CreateAt(man, recoveredRoot, rootName, |man.members|, j);
    CreateIs(man, man.members[i]);
    RootCreateIs(man, recoveredRoot, rootName);
    if j > 0 {
      CreateIs(man, man.members[j - 1]);
    }
  }

  // ---------------------------------------------------------------- what is retired

  lemma {:induction false} LocalOpsHave(ms: seq<TreeMember>, n: nat, op: Uuid)
    requires n <= |ms|
    ensures op in LocalOps(ms, n) <==> exists i :: 0 <= i < n && op in Retiring(ms[i])
  {
    hide Retiring;
    if n > 0 {
      LocalOpsHave(ms, n - 1, op);
    }
  }

  lemma RetiringIs(m: TreeMember, op: Uuid)
    ensures op in Retiring(m) <==> m.revision == 0 && Own(AsQueued(m), op)
  {
    ChainHas(m.chain, op);
  }

  /** Plans and their inputs, as the recovery store holds them. */
  ghost predicate Ready(s: State, applied: map<Uuid, Uuid>, root: Uuid, recoveredRoot: Uuid, mint: nat -> Uuid, k: nat,
                        cs: seq<Candidate>, man: TreeManifest, full: TreeManifest) {
    && Sourced(s, applied, root, recoveredRoot, man.newRoot, cs, mint)
    && Planned(s, applied, root, recoveredRoot, mint, k, cs, man)
    && Rekeyed(man, full) && TreeShape(full, recoveredRoot)
  }

  lemma ReadyIs(s: State, applied: map<Uuid, Uuid>, root: Uuid, recoveredRoot: Uuid, mint: nat -> Uuid, k: nat,
                cs: seq<Candidate>, man: TreeManifest, full: TreeManifest)
    requires Ready(s, applied, root, recoveredRoot, mint, k, cs, man, full)
    ensures Sourced(s, applied, root, recoveredRoot, man.newRoot, cs, mint)
            && Planned(s, applied, root, recoveredRoot, mint, k, cs, man)
    ensures Rekeyed(man, full) && TreeShape(full, recoveredRoot) && |full.members| == |man.members|
  {
    hide Sourced, Planned, TreeShape, RekeyedMember;
  }

  lemma SameOrigin(s: State, applied: map<Uuid, Uuid>, root: Uuid, recoveredRoot: Uuid, mint: nat -> Uuid, k: nat,
                   cs: seq<Candidate>, man: TreeManifest, full: TreeManifest, i: nat) returns (parentOp: Uuid)
    requires Ready(s, applied, root, recoveredRoot, mint, k, cs, man, full) && i < |full.members|
    ensures |full.members| == |man.members| && full.operation == man.operation && full.newRoot == man.newRoot
    ensures full.members[i].revision == man.members[i].revision && AsQueued(full.members[i]) == AsQueued(man.members[i])
    ensures full.members[i].source == man.members[i].source && full.members[i].recovered == man.members[i].recovered
    ensures full.members[i].newOp == man.members[i].newOp && full.members[i].sourceOp == man.members[i].sourceOp
    ensures full.members[i].chain == man.members[i].chain
    ensures Origin(s, applied, mint, k, man.members[i], parentOp)
  {
    hide *;
    ReadyIs(s, applied, root, recoveredRoot, mint, k, cs, man, full);
    RekeyedAt(man, full, i);
    parentOp := PlanAt(s, applied, root, recoveredRoot, mint, k, cs, man, i);
    QueuedSame(man.members[i], full.members[i]);
  }

  lemma QueuedSame(a: TreeMember, b: TreeMember)
    requires b == a.(recoveredBlob := b.recoveredBlob)
    ensures AsQueued(b) == AsQueued(a)
  {
  }

  /** A retired operation is pending, and the whole queue of its object is retired with it. */
  lemma RetiredRow(s: State, applied: map<Uuid, Uuid>, root: Uuid, recoveredRoot: Uuid, mint: nat -> Uuid, k: nat,
                   cs: seq<Candidate>, man: TreeManifest, full: TreeManifest, r: nat)
    requires Ready(s, applied, root, recoveredRoot, mint, k, cs, man, full) && r < |s.rows|
    requires s.rows[r].m.op in LocalOps(full.members, |full.members|)
    ensures s.rows[r].status == Pending
    ensures forall x :: 0 <= x < |s.rows| && s.rows[x].m.obj == s.rows[r].m.obj ==>
              s.rows[x].m.op in LocalOps(full.members, |full.members|)
  {
    var op := s.rows[r].m.op;
    hide *;
    ReadyIs(s, applied, root, recoveredRoot, mint, k, cs, man, full);
    SourcedIs(s, applied, root, recoveredRoot, man.newRoot, cs, mint);
    LocalOpsHave(full.members, |full.members|, op);
    var i :| 0 <= i < |full.members| && op in Retiring(full.members[i]);
    RetiringIs(full.members[i], op);
    var parentOp := SameOrigin(s, applied, root, recoveredRoot, mint, k, cs, man, full, i);
    OriginIs(s, applied, mint, k, man.members[i], parentOp);
    LocalIs(s, man.members[i], parentOp);
    OwnPending(s, AsQueued(full.members[i]), parentOp, r);
    forall x | 0 <= x < |s.rows| && s.rows[x].m.obj == s.rows[r].m.obj
      ensures s.rows[x].m.op in LocalOps(full.members, |full.members|)
    {
      OwnRow(s, AsQueued(full.members[i]), parentOp, x);
      RetiringIs(full.members[i], s.rows[x].m.op);
      LocalOpsHave(full.members, |full.members|, s.rows[x].m.op);
    }
  }

  lemma ManifestOpIf(man: TreeManifest, i: nat, op: Uuid)
    requires i < |man.members| && Own(AsQueued(man.members[i]), op)
    ensures ManifestOp(man, op)
  {
    hide Own, AsQueued;
  }

  lemma ClosedAt(s: State, root: Uuid, recoveredRoot: Uuid, man: TreeManifest, r: nat, p: Uuid)
    requires DependentsClosed(s, root, recoveredRoot, man) && r < |s.rows| && p in Deps(s.rows[r].m)
             && ManifestOp(man, p) && Open(s.rows[r].status)
    ensures exists i :: 0 <= i < |man.members| && man.members[i].revision == 0
             && Own(AsQueued(man.members[i]), s.rows[r].m.op)
  {
    var child := s.rows[r].m.op;
    assert AllowedChild(man.members, man.operation, root, recoveredRoot, p, child);
    hide DependentsClosed, ManifestOp, Deps, PlacedUnder;
    var i :| 0 <= i < |man.members| && man.members[i].revision == 0
      && ((child == man.members[i].sourceOp && PlacedUnder(man.members, man.operation, root, recoveredRoot, i, p))
          || exists k :: 0 <= k < |man.members[i].chain| && child == man.members[i].chain[k].op
              && p == Previous(AsQueued(man.members[i]), k));
    assert Own(AsQueued(man.members[i]), child);
  }

  /** Whatever is queued behind a retired operation is retired. */
  lemma RetiredDependent(s: State, applied: map<Uuid, Uuid>, root: Uuid, recoveredRoot: Uuid, mint: nat -> Uuid,
                         k: nat, cs: seq<Candidate>, man: TreeManifest, full: TreeManifest, r: nat, p: Uuid)
    requires Ready(s, applied, root, recoveredRoot, mint, k, cs, man, full) && r < |s.rows| && Queued(s.rows[r].status)
    requires p in Deps(s.rows[r].m) && p in LocalOps(full.members, |full.members|)
    ensures s.rows[r].m.op in LocalOps(full.members, |full.members|)
  {
    assert Open(s.rows[r].status);
    hide *;
    ReadyIs(s, applied, root, recoveredRoot, mint, k, cs, man, full);
    PlannedIs(s, applied, root, recoveredRoot, mint, k, cs, man);
    LocalOpsHave(full.members, |full.members|, p);
    var i :| 0 <= i < |full.members| && p in Retiring(full.members[i]);
    RetiringIs(full.members[i], p);
    var parentOp := SameOrigin(s, applied, root, recoveredRoot, mint, k, cs, man, full, i);
    ManifestOpIf(man, i, p);
    ClosedAt(s, root, recoveredRoot, man, r, p);
    var x :| 0 <= x < |man.members| && man.members[x].revision == 0 && Own(AsQueued(man.members[x]), s.rows[r].m.op);
    var other := SameOrigin(s, applied, root, recoveredRoot, mint, k, cs, man, full, x);
    RetiringIs(full.members[x], s.rows[r].m.op);
    LocalOpsHave(full.members, |full.members|, s.rows[r].m.op);
  }

  /** Retiring takes whole queues, and every queued dependent with them. */
  lemma RetiresWholeQueues(s: State, applied: map<Uuid, Uuid>, root: Uuid, recoveredRoot: Uuid, mint: nat -> Uuid,
                           k: nat, cs: seq<Candidate>, man: TreeManifest, full: TreeManifest)
    requires Ready(s, applied, root, recoveredRoot, mint, k, cs, man, full)
    ensures WholeQueues(s, LocalOps(full.members, |full.members|))
            && ClosedUnder(s, LocalOps(full.members, |full.members|))
  {
    var gone := LocalOps(full.members, |full.members|);
    hide *;
    forall r | 0 <= r < |s.rows| && s.rows[r].m.op in gone
      ensures s.rows[r].status == Pending
      ensures forall x :: 0 <= x < |s.rows| && s.rows[x].m.obj == s.rows[r].m.obj ==> s.rows[x].m.op in gone
    {
      RetiredRow(s, applied, root, recoveredRoot, mint, k, cs, man, full, r);
    }
    WholeIf(s, gone);
    forall r, p | 0 <= r < |s.rows| && p in Deps(s.rows[r].m) && p in gone && Queued(s.rows[r].status)
      ensures s.rows[r].m.op in gone
    {
      RetiredDependent(s, applied, root, recoveredRoot, mint, k, cs, man, full, r, p);
    }
    ClosedQueuedIf(s, gone);
  }

  lemma ClosedQueuedIf(s: State, gone: set<Uuid>)
    requires forall i, d :: 0 <= i < |s.rows| && d in Deps(s.rows[i].m) && d in gone && Queued(s.rows[i].status) ==>
               s.rows[i].m.op in gone
    ensures ClosedUnder(s, gone)
  {
    hide Deps;
  }

  // ---------------------------------------------------------------- the creates are accepted

  function TreeObjs(man: TreeManifest, recoveredRoot: Uuid, n: nat): set<Uuid>
    requires n <= |man.members|
  {
    if n == 0 then {} + {recoveredRoot} else TreeObjs(man, recoveredRoot, n - 1) + {man.members[n - 1].recovered}
  }

  lemma {:induction false} TreeObjsAre(man: TreeManifest, recoveredRoot: Uuid, n: nat, x: Uuid)
    requires n <= |man.members|
    ensures x in TreeObjs(man, recoveredRoot, n)
            <==> x == recoveredRoot || exists j :: 0 <= j < n && man.members[j].recovered == x
  {
    if n > 0 {
      TreeObjsAre(man, recoveredRoot, n - 1, x);
    }
  }

  lemma TreeSplit(man: TreeManifest, recoveredRoot: Uuid, rootName: string, n: nat)
    requires n <= |man.members|
    ensures TreeCreates(man, recoveredRoot, rootName, 0) == [] + [TreeRoot(man, recoveredRoot, rootName)]
    ensures TreeObjs(man, recoveredRoot, 0) == {} + {recoveredRoot}
    ensures n > 0 ==> TreeCreates(man, recoveredRoot, rootName, n)
                      == TreeCreates(man, recoveredRoot, rootName, n - 1) + [TreeCreate(man, man.members[n - 1])]
    ensures n > 0 ==> TreeObjs(man, recoveredRoot, n)
                      == TreeObjs(man, recoveredRoot, n - 1) + {man.members[n - 1].recovered}
  {
  }

  lemma BlobFits(s: State, applied: map<Uuid, Uuid>, root: Uuid, recoveredRoot: Uuid, mint: nat -> Uuid, k: nat,
                 cs: seq<Candidate>, man: TreeManifest, full: TreeManifest, i: nat)
    requires Ready(s, applied, root, recoveredRoot, mint, k, cs, man, full) && i < |full.members|
    ensures full.members[i].otype == Note ==> |full.members[i].recoveredBlob| == HASH_SIZE
  {
    hide *;
    ReadyIs(s, applied, root, recoveredRoot, mint, k, cs, man, full);
    RekeyedAt(man, full, i);
    var parentOp := PlanAt(s, applied, root, recoveredRoot, mint, k, cs, man, i);
    OriginIs(s, applied, mint, k, man.members[i], parentOp);
    FromAll(cs[i], man.members[i]);
    CandidateBlob(cs[i]);
    if man.members[i].revision == 0 {
      LocalIs(s, man.members[i], parentOp);
    }
  }

  lemma CandidateBlob(c: Candidate)
    requires CandidateOk(c)
    ensures c.otype == Note ==> |c.blob| == HASH_SIZE
  {
    hide ValidObjectId, ValidComponent, ValidRelative;
  }

  lemma CreateValid(man: TreeManifest, m: TreeMember)
    requires TreeMemberOk(m) && (m.otype == Note ==> |m.recoveredBlob| == HASH_SIZE)
    requires ValidOperationId(TreeDependency(man, m)) && TreeDependency(man, m) != m.newOp
    ensures ValidMutation(TreeCreate(man, m))
  {
    DepthAtLeastOne(m);
    CreateIs(man, m);
    hide ValidObjectId, ValidOperationId, ValidRelative, TreeDependency, TreeMemberOk;
    assert m.name != "";
    hide ValidComponent;
  }

  lemma DependencyFits(man: TreeManifest, recoveredRoot: Uuid, rootName: string, i: nat)
    requires TreeShape(man, recoveredRoot) && i < |man.members|
    ensures ValidOperationId(TreeDependency(man, man.members[i]))
            && TreeDependency(man, man.members[i]) != man.members[i].newOp
    ensures HasKept(TreeCreates(man, recoveredRoot, rootName, i), TreeDependency(man, man.members[i]))
  {
    hide *;
    FitsAt(man, recoveredRoot, i);
    FitsIs(man, recoveredRoot, i);
    var j := DependencyAt(man, recoveredRoot, i);
    CreateAt(man, recoveredRoot, rootName, i, j);
    RootCreateIs(man, recoveredRoot, rootName);
    if j > 0 {
      FitsAt(man, recoveredRoot, j - 1);
      DepthAtLeastOne(man.members[j - 1]);
      CreateIs(man, man.members[j - 1]);
    }
    HasKeptAt(TreeCreates(man, recoveredRoot, rootName, i), j, TreeDependency(man, man.members[i]));
  }

  lemma CreatesForeign(man: TreeManifest, recoveredRoot: Uuid, rootName: string, i: nat)
    requires TreeShape(man, recoveredRoot) && i < |man.members|
    ensures Foreign(TreeCreates(man, recoveredRoot, rootName, i), man.members[i].recovered)
    ensures !HasKept(TreeCreates(man, recoveredRoot, rootName, i), man.members[i].newOp)
    ensures man.members[i].recovered !in TreeObjs(man, recoveredRoot, i)
  {
    FitsAt(man, recoveredRoot, i);
    FitsIs(man, recoveredRoot, i);
    TreeObjsAre(man, recoveredRoot, i, man.members[i].recovered);
    CreateAt(man, recoveredRoot, rootName, i, 0);
    RootCreateIs(man, recoveredRoot, rootName);
    hide TreeShape, TreeMemberOk, MemberFits, TreeCreates, TreeCreate, TreeRoot, TreeObjs;
    forall x | 0 <= x < |TreeCreates(man, recoveredRoot, rootName, i)|
      ensures TreeCreates(man, recoveredRoot, rootName, i)[x].obj != man.members[i].recovered
      ensures TreeCreates(man, recoveredRoot, rootName, i)[x].op != man.members[i].newOp
    {
      CreateAt(man, recoveredRoot, rootName, i, x);
      if x > 0 {
        CreateIs(man, man.members[x - 1]);
      }
    }
  }

  lemma MarkedIdle(s: State, gone: set<Uuid>, obj: Uuid)
    requires obj !in s.baselines && forall r :: 0 <= r < |s.rows| && s.rows[r].m.obj == obj ==> s.rows[r].m.op in gone
    ensures !Durable(Marked(s, gone), obj)
  {
    MarkedSame(s, gone);
    hide Marked, Count;
    CountSuperseded(Marked(s, gone), obj, |s.rows|);
  }

  /** Nothing is queued of the identity a create gives, once the local operations are retired. */
  lemma CreatedIdle(s: State, applied: map<Uuid, Uuid>, root: Uuid, recoveredRoot: Uuid, mint: nat -> Uuid, k: nat,
                    cs: seq<Candidate>, man: TreeManifest, full: TreeManifest, i: nat)
    requires Ready(s, applied, root, recoveredRoot, mint, k, cs, man, full) && i < |full.members|
    ensures !Durable(Marked(s, LocalOps(full.members, |full.members|)), full.members[i].recovered)
  {
    var gone, m := LocalOps(full.members, |full.members|), full.members[i];
    hide *;
    ReadyIs(s, applied, root, recoveredRoot, mint, k, cs, man, full);
    SourcedIs(s, applied, root, recoveredRoot, man.newRoot, cs, mint);
    var parentOp := SameOrigin(s, applied, root, recoveredRoot, mint, k, cs, man, full, i);
    OriginIs(s, applied, mint, k, man.members[i], parentOp);
    if m.revision == 0 {
      LocalIs(s, man.members[i], parentOp);
      QueuedObj(m);
      forall r | 0 <= r < |s.rows| && s.rows[r].m.obj == m.recovered
        ensures s.rows[r].m.op in gone
      {
        OwnRow(s, AsQueued(m), parentOp, r);
        RetiringIs(m, s.rows[r].m.op);
        LocalOpsHave(full.members, |full.members|, s.rows[r].m.op);
      }
    } else {
      DrawnIs(s, root, recoveredRoot, man.newRoot, cs, mint, m.recovered, k);
    }
    MarkedIdle(s, gone, m.recovered);
  }

  lemma QueuedObj(m: TreeMember)
    ensures AsQueued(m).obj == m.source && AsQueued(m).oldOp == m.sourceOp && AsQueued(m).chain == m.chain
  {
  }

  lemma MarkedHas(s: State, gone: set<Uuid>, op: Uuid)
    ensures HasOp(Marked(s, gone), |Marked(s, gone).rows|, op) <==> HasOp(s, |s.rows|, op)
  {
    MarkedSame(s, gone);
    hide Marked;
  }

  lemma CreateNew(s: State, applied: map<Uuid, Uuid>, root: Uuid, recoveredRoot: Uuid, mint: nat -> Uuid, k: nat,
                  cs: seq<Candidate>, man: TreeManifest, full: TreeManifest, i: nat)
    requires Ready(s, applied, root, recoveredRoot, mint, k, cs, man, full) && i < |full.members|
    ensures !HasOp(s, |s.rows|, full.members[i].newOp)
  {
    hide *;
    ReadyIs(s, applied, root, recoveredRoot, mint, k, cs, man, full);
    SourcedIs(s, applied, root, recoveredRoot, man.newRoot, cs, mint);
    var parentOp := SameOrigin(s, applied, root, recoveredRoot, mint, k, cs, man, full, i);
    OriginIs(s, applied, mint, k, man.members[i], parentOp);
    DrawnIs(s, root, recoveredRoot, man.newRoot, cs, mint, man.members[i].newOp, k);
  }

  /** The recovered root and its operation are new. */
  ghost predicate RootUnused(s: State, recoveredRoot: Uuid, newRoot: Uuid) {
    && !HasOp(s, |s.rows|, newRoot) && recoveredRoot !in s.baselines
    && forall r :: 0 <= r < |s.rows| ==> s.rows[r].m.obj != recoveredRoot
  }

  lemma RootIdleHere(s: State, gone: set<Uuid>, recoveredRoot: Uuid, newRoot: Uuid)
    requires RootUnused(s, recoveredRoot, newRoot)
    ensures !Durable(Marked(s, gone), recoveredRoot) && !HasOp(s, |s.rows|, newRoot)
  {
    hide HasOp, Marked, Durable;
    MarkedIdle(s, gone, recoveredRoot);
  }

  lemma TreeRootValid(man: TreeManifest, recoveredRoot: Uuid, rootName: string)
    requires ValidOperationId(man.newRoot) && ValidObjectId(recoveredRoot) && ValidComponent(rootName)
    ensures ValidMutation(TreeRoot(man, recoveredRoot, rootName))
  {
    ConflictIdValid();
    RootCreateIs(man, recoveredRoot, rootName);
    assert rootName != "";
    hide ValidOperationId, ValidObjectId, ValidComponent;
  }

  lemma FirstGood(s: State, gone: set<Uuid>, man: TreeManifest, recoveredRoot: Uuid, rootName: string)
    requires WellFormed(Marked(s, gone)) && RootUnused(s, recoveredRoot, man.newRoot) && ValidComponent(rootName)
    requires ValidOperationId(man.newRoot) && ValidObjectId(recoveredRoot)
    ensures Good(Marked(s, gone), [] + [TreeRoot(man, recoveredRoot, rootName)], {} + {recoveredRoot})
  {
    var t, c := Marked(s, gone), TreeRoot(man, recoveredRoot, rootName);
    hide *;
    RootIdleHere(s, gone, recoveredRoot, man.newRoot);
    MarkedHas(s, gone, man.newRoot);
    TreeRootValid(man, recoveredRoot, rootName);
    RootCreateIs(man, recoveredRoot, rootName);
    NewHereAlone(t, c);
    NothingTame(t);
    GoodIs(t, [], {});
    GoodNext(t, [], {}, c);
  }

  /** The i-th member's create may be appended next. */
  lemma CreateReady(s: State, applied: map<Uuid, Uuid>, root: Uuid, recoveredRoot: Uuid, mint: nat -> Uuid, k: nat,
                    cs: seq<Candidate>, man: TreeManifest, full: TreeManifest, rootName: string, i: nat)
    requires Ready(s, applied, root, recoveredRoot, mint, k, cs, man, full) && i < |full.members|
    ensures var t, c := Marked(s, LocalOps(full.members, |full.members|)), TreeCreate(full, full.members[i]);
            var ms := TreeCreates(full, recoveredRoot, rootName, i);
            && c.kind == Create && c.obj == full.members[i].recovered && ValidMutation(c) && !Durable(t, c.obj)
            && Foreign(ms, c.obj) && c.obj !in TreeObjs(full, recoveredRoot, i) && NewHere(t, ms, c)
  {
    var t, m, ms := Marked(s, LocalOps(full.members, |full.members|)), full.members[i],
      TreeCreates(full, recoveredRoot, rootName, i);
    hide *;
    ReadyIs(s, applied, root, recoveredRoot, mint, k, cs, man, full);
    FitsAt(full, recoveredRoot, i);
    BlobFits(s, applied, root, recoveredRoot, mint, k, cs, man, full, i);
    DependencyFits(full, recoveredRoot, rootName, i);
    CreateValid(full, m);
    CreateIs(full, m);
    CreatesForeign(full, recoveredRoot, rootName, i);
    CreatedIdle(s, applied, root, recoveredRoot, mint, k, cs, man, full, i);
    CreateNew(s, applied, root, recoveredRoot, mint, k, cs, man, full, i);
    MarkedHas(s, LocalOps(full.members, |full.members|), m.newOp);
    NewHereAfter(t, ms, TreeCreate(full, m), TreeDependency(full, m));
  }

  lemma {:induction false} CreatesGood(s: State, applied: map<Uuid, Uuid>, root: Uuid, recoveredRoot: Uuid,
                                       mint: nat -> Uuid, k: nat, cs: seq<Candidate>, man: TreeManifest,
                                       full: TreeManifest, rootName: string, n: nat)
    requires Ready(s, applied, root, recoveredRoot, mint, k, cs, man, full) && n <= |full.members|
    requires WellFormed(Marked(s, LocalOps(full.members, |full.members|)))
    requires RootUnused(s, recoveredRoot, full.newRoot) && ValidComponent(rootName)
    ensures Good(Marked(s, LocalOps(full.members, |full.members|)), TreeCreates(full, recoveredRoot, rootName, n),
                 TreeObjs(full, recoveredRoot, n))
  {
    hide *;
    TreeSplit(full, recoveredRoot, rootName, n);
    if n == 0 {
      ReadyIs(s, applied, root, recoveredRoot, mint, k, cs, man, full);
      ShapeIs(full, recoveredRoot);
      FirstGood(s, LocalOps(full.members, |full.members|), full, recoveredRoot, rootName);
    } else {
      CreatesGood(s, applied, root, recoveredRoot, mint, k, cs, man, full, rootName, n - 1);
      CreateReady(s, applied, root, recoveredRoot, mint, k, cs, man, full, rootName, n - 1);
      GoodNext(Marked(s, LocalOps(full.members, |full.members|)), TreeCreates(full, recoveredRoot, rootName, n - 1),
               TreeObjs(full, recoveredRoot, n - 1), TreeCreate(full, full.members[n - 1]));
    }
  }

  /** The queue after the transaction. */
  function Ended(s: State, man: TreeManifest, recoveredRoot: Uuid, rootName: string): State {
    Extend(Marked(s, LocalOps(man.members, |man.members|)), TreeCreates(man, recoveredRoot, rootName, |man.members|))
  }

  /** Retiring the local operations and queueing the creates is accepted in full, keeps every queue a chain and strands
      nobody. */
  lemma TreeTransactionKeeps(s: State, applied: map<Uuid, Uuid>, root: Uuid, recoveredRoot: Uuid, mint: nat -> Uuid,
                             k: nat, cs: seq<Candidate>, man: TreeManifest, full: TreeManifest, rootName: string)
    requires Invariant(s) && Ready(s, applied, root, recoveredRoot, mint, k, cs, man, full)
    requires RootUnused(s, recoveredRoot, full.newRoot) && ValidComponent(rootName)
    ensures var t := EnqueueAll(Running(Marked(s, LocalOps(full.members, |full.members|)), {}),
                                TreeCreates(full, recoveredRoot, rootName, |full.members|));
            && t.Running? && t.s == Ended(s, full, recoveredRoot, rootName)
            && Invariant(t.s) && (NoneStranded(s) ==> NoneStranded(t.s))
  {
    var gone, ms := LocalOps(full.members, |full.members|), TreeCreates(full, recoveredRoot, rootName, |full.members|);
    EndedIs(s, full, recoveredRoot, rootName);
    hide *;
    InvariantFormed(s);
    RetiresWholeQueues(s, applied, root, recoveredRoot, mint, k, cs, man, full);
    RetireKeeps(s, gone);
    InvariantFormed(Marked(s, gone));
    CreatesGood(s, applied, root, recoveredRoot, mint, k, cs, man, full, rootName, |full.members|);
    GoodIs(Marked(s, gone), ms, TreeObjs(full, recoveredRoot, |full.members|));
    CleanIs(Marked(s, gone), ms, ms);
    TameKeeps(Marked(s, gone), ms, ms, TreeObjs(full, recoveredRoot, |full.members|));
    if NoneStranded(s) {
      RetireStrandsNobody(s, gone);
    }
  }

  lemma EndedIs(s: State, man: TreeManifest, recoveredRoot: Uuid, rootName: string)
    ensures Ended(s, man, recoveredRoot, rootName)
            == Extend(Marked(s, LocalOps(man.members, |man.members|)),
                      TreeCreates(man, recoveredRoot, rootName, |man.members|))
  {
  }

  /** No operation touches a known member's old identity: its rows stay as they were, and none of the new ones is about
      it. */
  lemma KnownUntouched(s: State, applied: map<Uuid, Uuid>, root: Uuid, recoveredRoot: Uuid, mint: nat -> Uuid, k: nat,
                       cs: seq<Candidate>, man: TreeManifest, full: TreeManifest, rootName: string, i: nat, r: nat)
    requires Ready(s, applied, root, recoveredRoot, mint, k, cs, man, full) && i < |full.members|
             && full.members[i].revision > 0
    requires RootUnused(s, recoveredRoot, full.newRoot)
    ensures var t := Ended(s, full, recoveredRoot, rootName);
            && |t.rows| == |s.rows| + |full.members| + 1
            && (r < |s.rows| && s.rows[r].m.obj == full.members[i].source ==> t.rows[r] == s.rows[r])
            && (|s.rows| <= r < |t.rows| ==> t.rows[r].m.obj != full.members[i].source)
  {
    hide *;
    EndedRows(s, full, recoveredRoot, rootName, r);
    if r < |s.rows| {
      if s.rows[r].m.obj == full.members[i].source {
        KnownNotRetired(s, applied, root, recoveredRoot, mint, k, cs, man, full, i, r);
      }
    } else if r <= |s.rows| + |full.members| {
      NewRowDiffers(s, applied, root, recoveredRoot, mint, k, cs, man, full, rootName, i, r - |s.rows|);
    }
  }

  lemma EndedRows(s: State, man: TreeManifest, recoveredRoot: Uuid, rootName: string, r: nat)
    ensures var t, ms := Ended(s, man, recoveredRoot, rootName),
            TreeCreates(man, recoveredRoot, rootName, |man.members|);
            && |ms| == |man.members| + 1 && |t.rows| == |s.rows| + |man.members| + 1
            && (r < |s.rows| && s.rows[r].m.op !in LocalOps(man.members, |man.members|) ==> t.rows[r] == s.rows[r])
            && (|s.rows| <= r < |t.rows| ==> t.rows[r].m == ms[r - |s.rows|])
  {
    var gone, ms := LocalOps(man.members, |man.members|), TreeCreates(man, recoveredRoot, rootName, |man.members|);
    var t := Ended(s, man, recoveredRoot, rootName);
    EndedIs(s, man, recoveredRoot, rootName);
    hide *;
    MarkedLength(s, gone);
    ExtendIs(Marked(s, gone), ms);
    CreateAt(man, recoveredRoot, rootName, |man.members|, 0);
    if r < |s.rows| && s.rows[r].m.op !in gone {
      MarkedRow(s, gone, r);
    }
    if |s.rows| <= r < |t.rows| {
      assert t.rows[|s.rows| + (r - |s.rows|)] == Row(ms[r - |s.rows|], Pending);
    }
  }

  lemma KnownNotRetired(s: State, applied: map<Uuid, Uuid>, root: Uuid, recoveredRoot: Uuid, mint: nat -> Uuid, k: nat,
                        cs: seq<Candidate>, man: TreeManifest, full: TreeManifest, i: nat, r: nat)
    requires Ready(s, applied, root, recoveredRoot, mint, k, cs, man, full) && i < |full.members|
             && full.members[i].revision > 0
    requires r < |s.rows| && s.rows[r].m.obj == full.members[i].source
    ensures s.rows[r].m.op !in LocalOps(full.members, |full.members|)
  {
    hide *;
    var parentOp := SameOrigin(s, applied, root, recoveredRoot, mint, k, cs, man, full, i);
    OriginIs(s, applied, mint, k, man.members[i], parentOp);
    KnownIs(s, applied, man.members[i]);
    if s.rows[r].m.op in LocalOps(full.members, |full.members|) {
      RetiredRow(s, applied, root, recoveredRoot, mint, k, cs, man, full, r);
      PendingIsOpen(s, r, full.members[i].source);
    }
  }

  lemma PendingIsOpen(s: State, r: nat, p: Uuid)
    requires r < |s.rows| && s.rows[r].m.obj == p && s.rows[r].status == Pending
    ensures OpenFor(s, p)
  {
  }

  lemma NewRowDiffers(s: State, applied: map<Uuid, Uuid>, root: Uuid, recoveredRoot: Uuid, mint: nat -> Uuid, k: nat,
                      cs: seq<Candidate>, man: TreeManifest, full: TreeManifest, rootName: string, i: nat, x: nat)
    requires Ready(s, applied, root, recoveredRoot, mint, k, cs, man, full) && i < |full.members|
             && full.members[i].revision > 0
    requires RootUnused(s, recoveredRoot, full.newRoot) && x <= |full.members|
    ensures |TreeCreates(full, recoveredRoot, rootName, |full.members|)| == |full.members| + 1
    ensures TreeCreates(full, recoveredRoot, rootName, |full.members|)[x].obj != full.members[i].source
  {
    hide *;
    ReadyIs(s, applied, root, recoveredRoot, mint, k, cs, man, full);
    SourcedIs(s, applied, root, recoveredRoot, man.newRoot, cs, mint);
    PlannedIs(s, applied, root, recoveredRoot, mint, k, cs, man);
    CreateAt(full, recoveredRoot, rootName, |full.members|, x);
    RootCreateIs(full, recoveredRoot, rootName);
    var mine := SameOrigin(s, applied, root, recoveredRoot, mint, k, cs, man, full, i);
    OriginIs(s, applied, mint, k, man.members[i], mine);
    KnownIs(s, applied, man.members[i]);
    if x == 0 {
      RootNotKnown(s, recoveredRoot, full.newRoot, full.members[i].source);
    } else {
      CreateIs(full, full.members[x - 1]);
      var other := SameOrigin(s, applied, root, recoveredRoot, mint, k, cs, man, full, x - 1);
      OriginIs(s, applied, mint, k, man.members[x - 1], other);
      Apart(man.members, root, recoveredRoot, i, x - 1);
      if man.members[x - 1].revision == 0 {
        LocalIs(s, man.members[x - 1], other);
      } else {
        DrawnIs(s, root, recoveredRoot, man.newRoot, cs, mint, man.members[x - 1].recovered, k);
      }
    }
  }

  lemma RootNotKnown(s: State, recoveredRoot: Uuid, newRoot: Uuid, p: Uuid)
    requires RootUnused(s, recoveredRoot, newRoot) && p in s.baselines
    ensures p != recoveredRoot
  {
    hide HasOp;
  }

  // ---------------------------------------------------------------- the transaction's loops

  /** The operations of a member, its create first. */
  function OpsOfMember(m: TreeMember, n: nat): set<Uuid>
    requires n <= |m.chain|
  {
    if n == 0 then {m.sourceOp} else OpsOfMember(m, n - 1) + {m.chain[n - 1].op}
  }

  lemma {:induction false} OpsOfMemberHave(m: TreeMember, n: nat, op: Uuid)
    requires n <= |m.chain|
    ensures op in OpsOfMember(m, n) <==> op == m.sourceOp || exists k :: 0 <= k < n && m.chain[k].op == op
  {
    if n > 0 {
      OpsOfMemberHave(m, n - 1, op);
    }
  }

  lemma WholeMember(m: TreeMember)
    requires m.revision == 0
    ensures OpsOfMember(m, |m.chain|) == Retiring(m)
  {
    forall op
      ensures op in OpsOfMember(m, |m.chain|) <==> op in Retiring(m)
    {
      OpsOfMemberHave(m, |m.chain|, op);
      ChainHas(m.chain, op);
    }
    hide OpsOfMember, Retiring;
  }

  lemma CreateRowOf(s: State, m: Member, parentOp: Uuid)
    requires LocalQueued(s, m, parentOp)
    ensures var i := IndexOf(s, m.oldOp, |s.rows|);
            i < |s.rows| && s.rows[i].m.op == m.oldOp && s.rows[i].status == Pending && s.rows[i].m.obj == m.obj
  {
    hide UpdateRow, IndexOf, FinalOf, Own, ValidOperationId, Deps;
  }

  lemma UpdateRowOf(s: State, m: Member, parentOp: Uuid, k: nat)
    requires WellFormed(s) && LocalQueued(s, m, parentOp) && k < |m.chain|
    ensures var i := IndexOf(s, m.chain[k].op, |s.rows|);
            && i < |s.rows| && s.rows[i].m.op == m.chain[k].op && s.rows[i].status == Pending
            && s.rows[i].m.obj == m.obj
            && IndexOf(s, Previous(m, k), |s.rows|) < i
  {
    var i := IndexOf(s, m.chain[k].op, |s.rows|);
    assert UpdateRow(s, i, m, k);
    assert Previous(m, k) in Deps(s.rows[i].m);
    assert HasOp(s, i, Previous(m, k));
    var j :| 0 <= j < i && s.rows[j].m.op == Previous(m, k);
    hide WellFormed, IndexOf, LocalQueued, Deps, Previous;
    RowAt(s, j, Previous(m, k));
  }

  /** A chain's operations are told apart by their place in the queue. */
  lemma {:induction false} ChainInOrder(s: State, m: Member, parentOp: Uuid, j: nat, k: nat)
    requires WellFormed(s) && LocalQueued(s, m, parentOp) && j < k <= |m.chain|
    ensures IndexOf(s, Previous(m, j), |s.rows|) < IndexOf(s, Previous(m, k), |s.rows|)
  {
    hide *;
    UpdateRowOf(s, m, parentOp, k - 1);
    PreviousIs(m, k);
    if j < k - 1 {
      ChainInOrder(s, m, parentOp, j, k - 1);
    }
  }

  lemma PreviousIs(m: Member, k: nat)
    requires k <= |m.chain|
    ensures Previous(m, k) == if k == 0 then m.oldOp else m.chain[k - 1].op
  {
  }

  lemma NextOpNew(s: State, m: TreeMember, parentOp: Uuid, n: nat)
    requires WellFormed(s) && LocalQueued(s, AsQueued(m), parentOp) && n < |m.chain|
    ensures m.chain[n].op !in OpsOfMember(m, n)
  {
    var q := AsQueued(m);
    hide *;
    QueuedObj(m);
    OpsOfMemberHave(m, n, m.chain[n].op);
    PreviousIs(q, 0);
    PreviousIs(q, n + 1);
    ChainInOrder(s, q, parentOp, 0, n + 1);
    forall k | 0 <= k < n
      ensures m.chain[k].op != m.chain[n].op
    {
      PreviousIs(q, k + 1);
      ChainInOrder(s, q, parentOp, k + 1, n + 1);
    }
  }

  /** Supersedes the pending row of an operation; `ok` tells whether there is one. */
  method RetireOperation(t: State, op: Uuid) returns (ok: bool, u: State)
    ensures var i := IndexOf(t, op, |t.rows|);
            (ok <==> i < |t.rows| && t.rows[i].status == Pending)
                && u == (if ok then SetStatus(t, i, Superseded) else t)
  {
    var i := IndexOf(t, op, |t.rows|);
    ok, u := i < |t.rows| && t.rows[i].status == Pending, t;
    if ok {
      u := SetStatus(t, i, Superseded);
    }
  }

  /** Retires everything queued of a local member. */
  method RetireLocal(ghost s: State, ghost gone: set<Uuid>, ghost parentOp: Uuid, m: TreeMember, t: State)
    returns (ok: bool, u: State)
    requires WellFormed(s) && m.revision == 0 && LocalQueued(s, AsQueued(m), parentOp) && t == Marked(s, gone)
    requires forall op :: op in Retiring(m) ==> op !in gone
    ensures ok && u == Marked(s, gone + Retiring(m))
  {
    hide *;
    QueuedObj(m);
    WholeMember(m);
    CreateRowOf(s, AsQueued(m), parentOp);
    ghost var x := IndexOf(s, m.sourceOp, |s.rows|);
    FirstOp(m);
    MemberOpRetired(m, 0);
    MarkedIndex(s, gone, m.sourceOp, |s.rows|);
    MarkedRow(s, gone, x);
    ok, u := RetireOperation(t, m.sourceOp);
    if !ok {
      return;
    }
    MarkOne(s, gone, x);
    for n := 0 to |m.chain|
      invariant ok && u == Marked(s, gone + OpsOfMember(m, n))
    {
      UpdateRowOf(s, AsQueued(m), parentOp, n);
      NextOpNew(s, m, parentOp, n);
      MemberOpRetired(m, n + 1);
      x := IndexOf(s, m.chain[n].op, |s.rows|);
      ghost var before := gone + OpsOfMember(m, n);
      MarkedIndex(s, before, m.chain[n].op, |s.rows|);
      MarkedRow(s, before, x);
      ok, u := RetireOperation(u, m.chain[n].op);
      if !ok {
        return;
      }
      MarkOne(s, before, x);
      NextOps(m, n);
      assert before + {m.chain[n].op} == gone + OpsOfMember(m, n + 1);
    }
  }

  lemma FirstOp(m: TreeMember)
    ensures OpsOfMember(m, 0) == {m.sourceOp}
  {
  }

  lemma NextOps(m: TreeMember, n: nat)
    requires n < |m.chain|
    ensures OpsOfMember(m, n + 1) == OpsOfMember(m, n) + {m.chain[n].op}
  {
  }

  lemma MemberOpRetired(m: TreeMember, n: nat)
    requires m.revision == 0 && n <= |m.chain|
    ensures (if n == 0 then m.sourceOp else m.chain[n - 1].op) in Retiring(m)
  {
    if n > 0 {
      ChainHas(m.chain, m.chain[n - 1].op);
    }
  }

  /** The operations of one member are not among those retired before. */
  lemma NotRetiredYet(s: State, applied: map<Uuid, Uuid>, root: Uuid, recoveredRoot: Uuid, mint: nat -> Uuid, k: nat,
                      cs: seq<Candidate>, man: TreeManifest, full: TreeManifest, i: nat, op: Uuid)
    requires Ready(s, applied, root, recoveredRoot, mint, k, cs, man, full) && i < |full.members|
             && op in Retiring(full.members[i])
    ensures op !in LocalOps(full.members, i)
  {
    hide *;
    LocalOpsHave(full.members, i, op);
    forall j | 0 <= j < i
      ensures op !in Retiring(full.members[j])
    {
      if op in Retiring(full.members[j]) {
        RetiringObj(s, applied, root, recoveredRoot, mint, k, cs, man, full, i, op);
        RetiringObj(s, applied, root, recoveredRoot, mint, k, cs, man, full, j, op);
        ReadyIs(s, applied, root, recoveredRoot, mint, k, cs, man, full);
        FitsAt(full, recoveredRoot, i);
        FitsIs(full, recoveredRoot, i);
      }
    }
  }

  lemma RetiringObj(s: State, applied: map<Uuid, Uuid>, root: Uuid, recoveredRoot: Uuid, mint: nat -> Uuid, k: nat,
                    cs: seq<Candidate>, man: TreeManifest, full: TreeManifest, i: nat, op: Uuid)
    requires Ready(s, applied, root, recoveredRoot, mint, k, cs, man, full) && i < |full.members|
             && op in Retiring(full.members[i])
    ensures var r := IndexOf(s, op, |s.rows|); r < |s.rows| && s.rows[r].m.obj == full.members[i].source
  {
    hide *;
    ReadyIs(s, applied, root, recoveredRoot, mint, k, cs, man, full);
    SourcedIs(s, applied, root, recoveredRoot, man.newRoot, cs, mint);
    RetiringIs(full.members[i], op);
    var parentOp := SameOrigin(s, applied, root, recoveredRoot, mint, k, cs, man, full, i);
    OriginIs(s, applied, mint, k, man.members[i], parentOp);
    LocalIs(s, man.members[i], parentOp);
    QueuedObj(full.members[i]);
    CreateRowOf(s, AsQueued(full.members[i]), parentOp);
    if op != full.members[i].sourceOp {
      var x := OwnAt(AsQueued(full.members[i]), op);
      UpdateRowOf(s, AsQueued(full.members[i]), parentOp, x);
    }
  }

  lemma OwnAt(m: Member, op: Uuid) returns (x: nat)
    requires Own(m, op)
    ensures op != m.oldOp ==> x < |m.chain| && m.chain[x].op == op
  {
    if op == m.oldOp {
      x := 0;
    } else {
      x :| 0 <= x < |m.chain| && m.chain[x].op == op;
    }
  }

  /** The operation that creates the recovered parent, found by searching the members in order. */
  method SearchDependency(man: TreeManifest, m: TreeMember) returns (d: Uuid)
    ensures d == TreeDependency(man, m)
  {
    d := man.newRoot;
    if m.depth > 1 {
      var i := 0;
      while i < |man.members| && man.members[i].recovered != m.recoveredParent
        invariant 0 <= i <= |man.members|
                  && FindRecovered(man.members, m.recoveredParent, 0)
                     == FindRecovered(man.members, m.recoveredParent, i)
      {
        i := i + 1;
      }
      if i < |man.members| {
        d := man.members[i].newOp;
      }
    }
  }

  lemma LocalOpsNext(ms: seq<TreeMember>, n: nat)
    requires n < |ms|
    ensures LocalOps(ms, n + 1) == LocalOps(ms, n) + Retiring(ms[n]) && LocalOps(ms, 0) == {}
    ensures ms[n].revision > 0 ==> LocalOps(ms, n + 1) == LocalOps(ms, n)
  {
  }

  lemma NothingMarked(s: State, ms: seq<TreeMember>)
    ensures Marked(s, LocalOps(ms, 0)) == s
  {
    assert Marked(s, LocalOps(ms, 0)).rows == s.rows;
  }

  lemma TreeCreateBy(man: TreeManifest, m: TreeMember, d: Uuid)
    requires d == TreeDependency(man, m)
    ensures Mutation(m.newOp, Create, m.recovered, m.otype, 0, Some(m.recoveredParent), m.name,
                     if m.otype == Note then m.recoveredBlob else [], Some(d), [])
            == TreeCreate(man, m)
  {
    hide TreeDependency;
  }

  /** Retires the local members' operations and builds one create per member behind the root's. */
  method BuildTree(s: State, ghost applied: map<Uuid, Uuid>, ghost root: Uuid, recoveredRoot: Uuid,
                   ghost mint: nat -> Uuid, ghost k: nat, ghost cs: seq<Candidate>, ghost man: TreeManifest,
                     full: TreeManifest, rootName: string)
    returns (ok: bool, t: State, ms: seq<Mutation>)
    requires Ready(s, applied, root, recoveredRoot, mint, k, cs, man, full)
    ensures ok && t == Marked(s, LocalOps(full.members, |full.members|))
            && ms == TreeCreates(full, recoveredRoot, rootName, |full.members|)
  {
    hide *;
    ReadyIs(s, applied, root, recoveredRoot, mint, k, cs, man, full);
    SourcedIs(s, applied, root, recoveredRoot, man.newRoot, cs, mint);
    NothingMarked(s, full.members);
    TreeSplit(full, recoveredRoot, rootName, 0);
    ok, t, ms := true, s, [TreeRoot(full, recoveredRoot, rootName)];
    for i := 0 to |full.members|
      invariant ok && t == Marked(s, LocalOps(full.members, i)) && ms == TreeCreates(full, recoveredRoot, rootName, i)
    {
      var m := full.members[i];
      LocalOpsNext(full.members, i);
      if m.revision == 0 {
        ghost var parentOp := SameOrigin(s, applied, root, recoveredRoot, mint, k, cs, man, full, i);
        OriginIs(s, applied, mint, k, man.members[i], parentOp);
        LocalIs(s, man.members[i], parentOp);
        forall op | op in Retiring(m)
          ensures op !in LocalOps(full.members, i)
        {
          NotRetiredYet(s, applied, root, recoveredRoot, mint, k, cs, man, full, i, op);
        }
        ok, t := RetireLocal(s, LocalOps(full.members, i), parentOp, m, t);
        if !ok {
          return;
        }
      }
      var d := SearchDependency(full, m);
      TreeCreateBy(full, m, d);
      TreeSplit(full, recoveredRoot, rootName, i + 1);
      ms := ms + [Mutation(m.newOp, Create, m.recovered, m.otype, 0, Some(m.recoveredParent), m.name,
                           if m.otype == Note then m.recoveredBlob else [], Some(d), [])];
    }
  }
}
