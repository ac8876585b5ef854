/** Retiring the queued graph and queueing its replacement: accepted in full, and building the same tree. */
module RecursiveReplacement {
  import opened Ids
  import opened Naming
  import opened Outbox
  import opened OutboxChain
  import opened OutboxProgress
  import opened OutboxExtend
  import opened OutboxRetire
  import opened RecursiveRecovery

  // ---------------------------------------------------------------- every queued row of a member is in the manifest

  function ChainRows(s: State, chain: seq<ChainOp>): set<nat> {
    if chain == [] then {} else ChainRows(s, chain[..|chain| - 1]) + {IndexOf(s, chain[|chain| - 1].op, |s.rows|)}
  }

  lemma RowsNext(s: State, chain: seq<ChainOp>, n: nat)
    requires n < |chain|
    ensures ChainRows(s, chain[..n + 1]) == ChainRows(s, chain[..n]) + {IndexOf(s, chain[n].op, |s.rows|)}
    ensures ChainOps(chain[..n + 1]) == ChainOps(chain[..n]) + {chain[n].op}
  {
    assert chain[..n + 1][..n] == chain[..n];
    hide IndexOf;
  }

  /** The row is one of the first n updates. */
  predicate ChainRowOk(s: State, m: Member, n: nat, i: nat) {
    n <= |m.chain| && i < |s.rows| && s.rows[i].m.obj == m.obj && s.rows[i].m.kind == Update
        && s.rows[i].m.op in ChainOps(m.chain[..n])
  }

  lemma UpdateFacts(s: State, m: Member, k: nat, i: nat)
    requires k < |m.chain| && UpdateRow(s, i, m, k)
    ensures i < |s.rows| && s.rows[i].m.obj == m.obj && s.rows[i].m.kind == Update && s.rows[i].m.op == m.chain[k].op
  {
  }

  lemma RowOkNext(s: State, m: Member, n: nat, i: nat)
    requires n < |m.chain|
    ensures ChainRowOk(s, m, n, i) ==> ChainRowOk(s, m, n + 1, i)
    ensures UpdateRow(s, i, m, n) ==> ChainRowOk(s, m, n + 1, i)
  {
    RowsNext(s, m.chain, n);
    hide ChainOps, ChainRows;
  }

  lemma {:induction false} ChainRowIs(s: State, m: Member, n: nat, i: nat)
    requires n <= |m.chain| && i in ChainRows(s, m.chain[..n])
    requires forall k :: 0 <= k < |m.chain| ==> UpdateRow(s, IndexOf(s, m.chain[k].op, |s.rows|), m, k)
    ensures ChainRowOk(s, m, n, i)
  {
    if n == 0 {
      NoRows(s, m.chain);
    } else {
      hide *;
      RowsNext(s, m.chain, n - 1);
      RowOkNext(s, m, n - 1, i);
      if i in ChainRows(s, m.chain[..n - 1]) {
        ChainRowIs(s, m, n - 1, i);
      }
    }
  }

  lemma NewInChain(m: Member, seen: set<Uuid>, k: nat)
    requires OpsNew(m, seen) && k < |m.chain|
    ensures m.chain[k].op !in ChainOps(m.chain[..k])
  {
    hide ChainOps;
  }

  lemma NoRows(s: State, chain: seq<ChainOp>)
    ensures ChainRows(s, chain[..0]) == {}
  {
  }

  lemma ChainRowOkIs(s: State, m: Member, n: nat, i: nat)
    requires n <= |m.chain| && ChainRowOk(s, m, n, i)
    ensures i < |s.rows| && s.rows[i].m.obj == m.obj && s.rows[i].m.kind == Update
            && s.rows[i].m.op in ChainOps(m.chain[..n])
  {
    hide ChainOps;
  }

  lemma {:induction false} ChainRowsCount(s: State, m: Member, n: nat, seen: set<Uuid>)
    requires n <= |m.chain| && OpsNew(m, seen)
    requires forall k :: 0 <= k < |m.chain| ==> UpdateRow(s, IndexOf(s, m.chain[k].op, |s.rows|), m, k)
    ensures |ChainRows(s, m.chain[..n])| == n
  {
    hide *;
    if n == 0 {
      NoRows(s, m.chain);
    } else {
      ChainRowsCount(s, m, n - 1, seen);
      RowsNext(s, m.chain, n - 1);
      NewInChain(m, seen, n - 1);
      var i := IndexOf(s, m.chain[n - 1].op, |s.rows|);
      UpdateFacts(s, m, n - 1, i);
      if i in ChainRows(s, m.chain[..n - 1]) {
        ChainRowIs(s, m, n - 1, i);
        ChainRowOkIs(s, m, n - 1, i);
        assert false;
      }
    }
  }

  lemma {:induction false} RowsCounted(s: State, obj: Uuid, rows: set<nat>, n: nat)
    requires n <= |s.rows| && forall i :: i in rows ==> i < n && s.rows[i].m.obj == obj
    ensures |rows| <= CountOf(s, obj, n)
  {
    if n == 0 {
      assert rows == {};
    } else {
      var rest := rows - {n - 1};
      RowsCounted(s, obj, rest, n - 1);
      assert rows <= rest + {n - 1};
      assert |rows| <= |rest| + 1;
      if n - 1 !in rows {
        assert rest == rows;
      }
    }
  }

  lemma {:induction false} ChainHas(chain: seq<ChainOp>, op: Uuid)
    ensures op in ChainOps(chain) <==> exists k :: 0 <= k < |chain| && chain[k].op == op
  {
    if chain != [] {
      var init := chain[..|chain| - 1];
      ChainHas(init, op);
      if k :| 0 <= k < |init| && init[k].op == op {
        assert chain[k].op == op;
      }
      if k :| 0 <= k < |chain| && chain[k].op == op {
        if k < |init| {
          assert init[k].op == op;
        }
      }
    }
  }

  lemma QueuedRows(s: State, man: Manifest, root: Uuid, m: Member)
    requires MemberQueued(s, man, root, m)
    ensures forall k :: 0 <= k < |m.chain| ==> UpdateRow(s, IndexOf(s, m.chain[k].op, |s.rows|), m, k)
    ensures CountOf(s, m.obj, |s.rows|) == 1 + |m.chain|
    ensures var i := IndexOf(s, m.oldOp, |s.rows|);
            i < |s.rows| && s.rows[i].m.obj == m.obj && s.rows[i].m.op == m.oldOp && s.rows[i].m.kind == Create
  {
    hide UpdateRow, IndexOf, CountOf, FinalOf, Dependency;
  }

  lemma MemberInManifest(man: Manifest, k: nat, op: Uuid)
    requires k < |man.members| && (op == man.members[k].oldOp || op in ChainOps(man.members[k].chain))
    ensures OldOpOf(man, op)
  {
  }

  /** The outbox holds nothing about a member's object but its create and its updates. */
  lemma OwnRows(s: State, man: Manifest, root: Uuid, k: nat, i: nat)
    requires TopologyOk(s, man, root) && k < |man.members| && i < |s.rows| && s.rows[i].m.obj == man.members[k].obj
    ensures OldOpOf(man, s.rows[i].m.op)
  {
    var m := man.members[k];
    hide *;
    QueuedMember(s, man, root, k);
    ShapeOf(man, k);
    QueuedRows(s, man, root, m);
    var own, rows := IndexOf(s, m.oldOp, |s.rows|), ChainRows(s, m.chain);
    assert m.chain[..|m.chain|] == m.chain;
    ChainRowsCount(s, m, |m.chain|, SeenOps(man, k));
    forall r | r in rows
      ensures r < |s.rows| && s.rows[r].m.obj == m.obj && s.rows[r].m.kind == Update
              && s.rows[r].m.op in ChainOps(m.chain)
    {
      ChainRowIs(s, m, |m.chain|, r);
      ChainRowOkIs(s, m, |m.chain|, r);
    }
    if i == own || i in rows {
      MemberInManifest(man, k, s.rows[i].m.op);
    } else {
      TooManyRows(s, m.obj, rows, own, i);
      assert false;
    }
  }

  lemma TooManyRows(s: State, obj: Uuid, rows: set<nat>, own: nat, i: nat)
    requires forall r :: r in rows ==> r < |s.rows| && s.rows[r].m.obj == obj && s.rows[r].m.kind == Update
    requires own < |s.rows| && s.rows[own].m.obj == obj && s.rows[own].m.kind == Create
    requires i < |s.rows| && s.rows[i].m.obj == obj && i != own && i !in rows
    ensures CountOf(s, obj, |s.rows|) >= |rows| + 2
  {
    assert own !in rows;
    assert |rows + {own}| == |rows| + 1;
    assert |rows + {own} + {i}| == |rows| + 2;
    RowsCounted(s, obj, rows + {own} + {i}, |s.rows|);
  }

  lemma ShapeOf(man: Manifest, i: nat)
    requires ManifestShape(man) && i < |man.members|
    ensures MemberShape(man.members[i]) && ObjsBefore(man, i) && OpsNew(man.members[i], SeenOps(man, i))
            && Nested(man, i)
  {
    hide MemberShape, ObjsBefore, OpsNew, SeenOps, Nested;
  }

  lemma QueuedMember(s: State, man: Manifest, root: Uuid, k: nat)
    requires TopologyOk(s, man, root) && k < |man.members|
    ensures MemberQueued(s, man, root, man.members[k]) && ManifestShape(man)
  {
    hide MemberQueued, ManifestShape, Complete;
  }

  // ---------------------------------------------------------------- the enqueue is accepted

  /** The identities minted for the recovery are new. */
  ghost predicate MintedFresh(s: State, man: Manifest, recovered: Uuid) {
    && ValidOperationId(man.newRoot) && ValidObjectId(recovered) && !HasOp(s, |s.rows|, man.newRoot)
    && recovered !in s.baselines && (forall i :: 0 <= i < |s.rows| ==> s.rows[i].m.obj != recovered)
    && forall k :: 0 <= k < |man.members| ==>
         man.members[k].obj != recovered && !HasOp(s, |s.rows|, man.members[k].newOp)
  }

  /** Each member comes after its parent, as the code's lookup of the parent's new operation demands. */
  predicate ParentsFirst(man: Manifest) {
    forall i :: 0 <= i < |man.members| && man.members[i].depth > 1 ==> Find(man.members, man.members[i].parent) < i
  }

  lemma {:induction false} GoneHas(man: Manifest, i: nat, op: Uuid)
    requires i <= |man.members|
    ensures op in Gone(man, i) <==> exists k :: i <= k < |man.members| && op in OldOpsOf(man.members[k])
    decreases |man.members| - i
  {
    hide OldOpsOf;
    if i < |man.members| {
      GoneHas(man, i + 1, op);
    }
  }

  lemma OldOpOfIs(man: Manifest, op: Uuid)
    ensures OldOpOf(man, op) <==> exists k :: 0 <= k < |man.members| && op in OldOpsOf(man.members[k])
  {
    hide ChainOps;
  }

  lemma RetiredIs(s: State, man: Manifest)
    ensures Retired(s, man) == Marked(s, Gone(man, 0))
    ensures forall op :: op in Gone(man, 0) <==> OldOpOf(man, op)
  {
    forall op
      ensures op in Gone(man, 0) <==> OldOpOf(man, op)
    {
      GoneHas(man, 0, op);
      OldOpOfIs(man, op);
    }
  }

  lemma RetiredRows(s: State, man: Manifest)
    ensures var t := Retired(s, man);
            |t.rows| == |s.rows| && t.baselines == s.baselines && t.met == s.met && t.recoveries == s.recoveries
            && forall i :: 0 <= i < |s.rows| ==>
                 t.rows[i].m == s.rows[i].m && (OldOpOf(man, s.rows[i].m.op) ==> t.rows[i].status == Superseded)
  {
    RetiredIs(s, man);
    hide OldOpOf, Gone;
  }

  function Created(man: Manifest, recovered: Uuid, n: nat): set<Uuid>
    requires n <= |man.members|
  {
    if n == 0 then {recovered} else Created(man, recovered, n - 1) + {man.members[n - 1].obj}
  }

  lemma {:induction false} CreatedIs(man: Manifest, recovered: Uuid, n: nat, x: Uuid)
    requires n <= |man.members|
    ensures x in Created(man, recovered, n) <==> x == recovered || exists j :: 0 <= j < n && man.members[j].obj == x
  {
    if n > 0 {
      CreatedIs(man, recovered, n - 1, x);
    }
  }

  lemma {:induction false} SeenHas(man: Manifest, n: nat, j: nat)
    requires j < n <= |man.members|
    ensures man.members[j].newOp in SeenOps(man, n) && man.members[j].oldOp in SeenOps(man, n)
    ensures man.newRoot in SeenOps(man, n) && man.operation in SeenOps(man, n)
    ensures ChainOps(man.members[j].chain) <= SeenOps(man, n)
  {
    if j < n - 1 {
      SeenHas(man, n - 1, j);
    } else {
      SeenRoot(man, n - 1);
    }
  }

  lemma {:induction false} SeenRoot(man: Manifest, n: nat)
    requires n <= |man.members|
    ensures man.newRoot in SeenOps(man, n) && man.operation in SeenOps(man, n)
  {
    if n > 0 {
      SeenRoot(man, n - 1);
    }
  }

  lemma OpValid(m: Member)
    requires MemberShape(m)
    ensures ValidOperationId(m.newOp) && ValidObjectId(m.obj)
  {
    hide ValidOperationId, ValidObjectId, ValidComponent, ValidRelative;
  }

  lemma NewOpUnseen(m: Member, seen: set<Uuid>)
    requires OpsNew(m, seen)
    ensures m.newOp !in seen && m.oldOp !in seen
  {
  }

  lemma DependencyIs(man: Manifest, m: Member)
    ensures m.depth == 1 ==> NewDependency(man, m) == man.newRoot
    ensures m.depth != 1 && Find(man.members, m.parent) < |man.members| ==>
              NewDependency(man, m) == man.members[Find(man.members, m.parent)].newOp
  {
  }

  lemma ParentBefore(man: Manifest, n: nat)
    requires ParentsFirst(man) && n < |man.members|
    ensures man.members[n].depth > 1 ==> Find(man.members, man.members[n].parent) < n
  {
  }

  lemma DepthPositive(m: Member)
    requires MemberShape(m)
    ensures m.depth >= 1
  {
  }

  lemma {:induction false} ReplacementAt(man: Manifest, recovered: Uuid, rootName: string, n: nat, k: nat)
    requires k <= n <= |man.members|
    ensures |Replacements(man, recovered, rootName, n)| == n + 1
    ensures Replacements(man, recovered, rootName, n)[k]
            == if k == 0 then RootCreate(man, recovered, rootName) else Replacement(man, recovered, man.members[k - 1])
  {
    hide RootCreate, Replacement;
    if n > 0 {
      ReplacementAt(man, recovered, rootName, n - 1, if k < n then k else 0);
    }
  }

  lemma HasKeptAt(ms: seq<Mutation>, k: nat, op: Uuid)
    requires k < |ms| && ms[k].op == op
    ensures HasKept(ms, op)
  {
  }

  /** What the n-th replacement waits for is queued right before, and is not the replacement itself. */
  lemma DependencyQueued(man: Manifest, recovered: Uuid, rootName: string, n: nat)
    requires ManifestShape(man) && ParentsFirst(man) && n < |man.members| && ValidOperationId(man.newRoot)
    ensures var m := man.members[n];
            && ValidOperationId(NewDependency(man, m)) && NewDependency(man, m) != m.newOp
            && HasKept(Replacements(man, recovered, rootName, n), NewDependency(man, m))
  {
    var m, ms := man.members[n], Replacements(man, recovered, rootName, n);
    hide *;
    ShapeOf(man, n);
    DepthPositive(m);
    NewOpUnseen(m, SeenOps(man, n));
    SeenRoot(man, n);
    DependencyIs(man, m);
    if m.depth == 1 {
      ReplacementAt(man, recovered, rootName, n, 0);
      RootIs(man, recovered, rootName);
      HasKeptAt(ms, 0, man.newRoot);
    } else {
      ParentBefore(man, n);
      var j := Find(man.members, m.parent);
      ShapeOf(man, j);
      OpValid(man.members[j]);
      SeenHas(man, n, j);
      ReplacementAt(man, recovered, rootName, n, j + 1);
      ReplacementDeps(man, recovered, man.members[j]);
      HasKeptAt(ms, j + 1, man.members[j].newOp);
    }
  }

  lemma RootIs(man: Manifest, recovered: Uuid, rootName: string)
    ensures var c := RootCreate(man, recovered, rootName);
            c.op == man.newRoot && c.obj == recovered && c.kind == Create && Deps(c) == {}
  {
    assert Deps(RootCreate(man, recovered, rootName)) == {};
  }

  lemma QueuedBaseline(s: State, man: Manifest, root: Uuid, m: Member)
    requires MemberQueued(s, man, root, m)
    ensures m.obj !in s.baselines
  {
    hide CreateRow, UpdateRow, IndexOf, CountOf, FinalOf, Dependency;
  }

  lemma ObjsDiffer(man: Manifest, n: nat, j: nat)
    requires n < |man.members| && ObjsBefore(man, n)
    ensures j < n ==> man.members[j].obj != man.members[n].obj
  {
  }

  lemma RecoveredNew(s: State, man: Manifest, recovered: Uuid, k: nat)
    requires MintedFresh(s, man, recovered)
    ensures k < |man.members| ==> man.members[k].obj != recovered && !HasOp(s, |s.rows|, man.members[k].newOp)
    ensures ValidOperationId(man.newRoot) && ValidObjectId(recovered) && !HasOp(s, |s.rows|, man.newRoot)
  {
    hide ValidOperationId, ValidObjectId, HasOp;
  }

  lemma {:induction false} CountSuperseded(t: State, obj: Uuid, n: nat)
    requires n <= |t.rows| && forall i :: 0 <= i < |t.rows| && t.rows[i].m.obj == obj ==> t.rows[i].status == Superseded
    ensures Count(t, obj, n) == 0
  {
    if n > 0 {
      CountSuperseded(t, obj, n - 1);
    }
  }

  lemma IdleIf(t: State, obj: Uuid)
    requires obj !in t.baselines && Count(t, obj, |t.rows|) == 0
    ensures !Durable(t, obj)
  {
    hide Count;
  }

  /** Once retired, nothing is queued of a member any more. */
  lemma MemberIdle(s: State, man: Manifest, root: Uuid, k: nat)
    requires TopologyOk(s, man, root) && k < |man.members|
    ensures !Durable(Retired(s, man), man.members[k].obj)
  {
    var m, t := man.members[k], Retired(s, man);
    hide *;
    QueuedMember(s, man, root, k);
    QueuedBaseline(s, man, root, m);
    RetiredRows(s, man);
    forall i | 0 <= i < |t.rows| && t.rows[i].m.obj == m.obj
      ensures t.rows[i].status == Superseded
    {
      OwnRows(s, man, root, k, i);
    }
    CountSuperseded(t, m.obj, |t.rows|);
    IdleIf(t, m.obj);
  }

  lemma RootIdle(s: State, man: Manifest, recovered: Uuid)
    requires MintedFresh(s, man, recovered)
    ensures !Durable(Retired(s, man), recovered)
  {
    RetiredRows(s, man);
    hide Retired, ValidOperationId, ValidObjectId, HasOp, Count;
    CountSuperseded(Retired(s, man), recovered, |s.rows|);
  }

  lemma RetiredHas(s: State, man: Manifest, op: Uuid)
    ensures HasOp(Retired(s, man), |Retired(s, man).rows|, op) <==> HasOp(s, |s.rows|, op)
  {
    RetiredRows(s, man);
    hide Retired, OldOpOf;
  }

  /** The k-th operation of the batch is not the n-th member's replacement, nor about its object. */
  lemma EarlierDiffers(man: Manifest, recovered: Uuid, rootName: string, n: nat, k: nat)
    requires k <= n < |man.members| && ManifestShape(man) && man.members[n].obj != recovered
    ensures |Replacements(man, recovered, rootName, n)| == n + 1
    ensures Replacements(man, recovered, rootName, n)[k].op != man.members[n].newOp
    ensures Replacements(man, recovered, rootName, n)[k].obj != man.members[n].obj
  {
    hide *;
    ShapeOf(man, n);
    NewOpUnseen(man.members[n], SeenOps(man, n));
    SeenRoot(man, n);
    ReplacementAt(man, recovered, rootName, n, k);
    if k == 0 {
      RootIs(man, recovered, rootName);
    } else {
      ReplacementDeps(man, recovered, man.members[k - 1]);
      SeenHas(man, n, k - 1);
      ObjsDiffer(man, n, k - 1);
    }
  }

  lemma EarlierForeign(man: Manifest, recovered: Uuid, rootName: string, n: nat)
    requires n < |man.members| && ManifestShape(man) && man.members[n].obj != recovered
    ensures Foreign(Replacements(man, recovered, rootName, n), man.members[n].obj)
    ensures !HasKept(Replacements(man, recovered, rootName, n), man.members[n].newOp)
  {
    forall k | 0 <= k < |Replacements(man, recovered, rootName, n)|
      ensures Replacements(man, recovered, rootName, n)[k].obj != man.members[n].obj
      ensures Replacements(man, recovered, rootName, n)[k].op != man.members[n].newOp
    {
      ReplacementAt(man, recovered, rootName, n, 0);
      EarlierDiffers(man, recovered, rootName, n, k);
    }
    hide Replacements;
  }

  lemma ReplacementShape(s: State, man: Manifest, root: Uuid, recovered: Uuid, m: Member)
    requires RowsValid(s) && MemberShape(m) && MemberQueued(s, man, root, m) && ValidObjectId(recovered)
    requires ValidOperationId(NewDependency(man, m)) && NewDependency(man, m) != m.newOp
    ensures ValidMutation(Replacement(man, recovered, m))
  {
    var c := Replacement(man, recovered, m);
    assert Deps(c) == {NewDependency(man, m)};
    if m.otype == Note {
      FinalValid(s, man, root, m);
    }
    assert m.name != "";
    hide ValidOperationId, ValidObjectId, ValidComponent, ValidRelative, NewDependency, MemberQueued, RowsValid;
  }

  lemma FinalValid(s: State, man: Manifest, root: Uuid, m: Member)
    requires RowsValid(s) && MemberQueued(s, man, root, m) && m.otype == Note
    ensures |m.finalBlob| == HASH_SIZE
  {
    var i := FinalRow(s, man, root, m);
    hide MemberQueued, ValidOperationId, ValidObjectId, ValidComponent, Deps;
    assert ValidMutation(s.rows[i].m);
  }

  /** The row with a note's final bytes. */
  lemma FinalRow(s: State, man: Manifest, root: Uuid, m: Member) returns (i: nat)
    requires MemberQueued(s, man, root, m) && m.otype == Note
    ensures i < |s.rows| && s.rows[i].status == Pending
    ensures s.rows[i].m.otype == Note && s.rows[i].m.kind in {Create, Update} && s.rows[i].m.blob == m.finalBlob
  {
    hide CountOf, IndexOf, Dependency, Deps, Previous;
    i := IndexOf(s, if m.chain == [] then m.oldOp else m.chain[|m.chain| - 1].op, |s.rows|);
  }

  lemma ConflictIdValid()
    ensures ValidObjectId(CONFLICT_RECOVERED)
  {
  }

  lemma RootValid(man: Manifest, recovered: Uuid, rootName: string)
    requires ValidOperationId(man.newRoot) && ValidObjectId(recovered) && ValidComponent(rootName)
    ensures var c := RootCreate(man, recovered, rootName);
            ValidMutation(c) && Deps(c) == {} && c.kind == Create && c.obj == recovered && c.op == man.newRoot
  {
    ConflictIdValid();
    assert rootName != "";
    hide ValidOperationId, ValidObjectId, ValidComponent;
    assert Deps(RootCreate(man, recovered, rootName)) == {};
  }

  lemma ReplacementDeps(man: Manifest, recovered: Uuid, m: Member)
    ensures var c := Replacement(man, recovered, m);
            Deps(c) == {NewDependency(man, m)} && c.kind == Create && c.obj == m.obj && c.op == m.newOp
  {
  }

  lemma CreatedNext(man: Manifest, recovered: Uuid, n: nat)
    requires n < |man.members|
    ensures Created(man, recovered, n + 1) == Created(man, recovered, n) + {man.members[n].obj}
    ensures Created(man, recovered, 0) == {} + {recovered}
  {
  }

  lemma NotCreated(man: Manifest, recovered: Uuid, n: nat)
    requires ManifestShape(man) && n < |man.members| && man.members[n].obj != recovered
    ensures man.members[n].obj !in Created(man, recovered, n)
  {
    hide *;
    ShapeOf(man, n);
    CreatedIs(man, recovered, n, man.members[n].obj);
    forall j | 0 <= j < n
      ensures man.members[j].obj != man.members[n].obj
    {
      ObjsDiffer(man, n, j);
    }
  }

  lemma RetiredFormed(s: State, man: Manifest)
    requires WellFormed(s) && forall i :: 0 <= i < |s.rows| && OldOpOf(man, s.rows[i].m.op) ==>
               s.rows[i].status == Pending
    ensures WellFormed(Retired(s, man))
  {
    RetiredIs(s, man);
    MarkedSame(s, Gone(man, 0));
    hide Marked, Gone, OldOpOf, WellFormed, SameOps;
    OpsKept(s, Retired(s, man));
  }

  /** The manifest's operations are all pending. */
  lemma OldOpsPending(s: State, man: Manifest, root: Uuid, i: nat)
    requires WellFormed(s) && TopologyOk(s, man, root) && i < |s.rows| && OldOpOf(man, s.rows[i].m.op)
    ensures s.rows[i].status == Pending
    ensures exists k :: 0 <= k < |man.members| && man.members[k].obj == s.rows[i].m.obj
  {
    var op := s.rows[i].m.op;
    var k :| 0 <= k < |man.members| && (man.members[k].oldOp == op || op in ChainOps(man.members[k].chain));
    var m := man.members[k];
    hide *;
    QueuedMember(s, man, root, k);
    IndexIs(s, i, |s.rows|);
    QueuedCreateRow(s, man, root, m);
    QueuedRows(s, man, root, m);
    if m.oldOp != op {
      ChainHas(m.chain, op);
      var x :| 0 <= x < |m.chain| && m.chain[x].op == op;
      UpdateRowPending(s, i, m, x);
    }
  }

  lemma QueuedCreateRow(s: State, man: Manifest, root: Uuid, m: Member)
    requires MemberQueued(s, man, root, m)
    ensures var i := IndexOf(s, m.oldOp, |s.rows|);
            i < |s.rows| && s.rows[i].status == Pending && s.rows[i].m.obj == m.obj
  {
    hide UpdateRow, IndexOf, CountOf, FinalOf, Dependency;
  }

  lemma UpdateRowPending(s: State, i: nat, m: Member, k: nat)
    requires k < |m.chain| && UpdateRow(s, i, m, k)
    ensures i < |s.rows| && s.rows[i].status == Pending && s.rows[i].m.obj == m.obj
  {
  }

  lemma FreshRoot(s: State, man: Manifest, recovered: Uuid, rootName: string)
    requires WellFormed(Retired(s, man)) && MintedFresh(s, man, recovered) && ValidComponent(rootName)
    ensures Good(Retired(s, man), [] + [RootCreate(man, recovered, rootName)], {} + {recovered})
  {
    var t, c := Retired(s, man), RootCreate(man, recovered, rootName);
    hide *;
    RecoveredNew(s, man, recovered, 0);
    RetiredHas(s, man, man.newRoot);
    RootValid(man, recovered, rootName);
    RootIs(man, recovered, rootName);
    RootIdle(s, man, recovered);
    NewHereAlone(t, c);
    NothingTame(t);
    GoodIs(t, [], {});
    GoodNext(t, [], {}, c);
  }

  /** Retiring the manifest and queueing its replacements is accepted in full: the queue is extended by one create for
      the root and one for each member, in order. */
  lemma {:induction false} ReplacementAccepted(s: State, man: Manifest, root: Uuid, recovered: Uuid, rootName: string,
                                               n: nat)
    requires WellFormed(Retired(s, man)) && RowsValid(s) && TopologyOk(s, man, root) && MintedFresh(s, man, recovered)
             && ParentsFirst(man)
    requires ValidComponent(rootName) && n <= |man.members|
    ensures Good(Retired(s, man), Replacements(man, recovered, rootName, n), Created(man, recovered, n))
  {
    hide *;
    ReplacementsSplit(man, recovered, rootName, n);
    if n == 0 {
      FreshRoot(s, man, recovered, rootName);
    } else {
      var m := man.members[n - 1];
      ReplacementAccepted(s, man, root, recovered, rootName, n - 1);
      QueuedMember(s, man, root, n - 1);
      ShapeOf(man, n - 1);
      RecoveredNew(s, man, recovered, n - 1);
      DependencyQueued(man, recovered, rootName, n - 1);
      ReplacementShape(s, man, root, recovered, m);
      ReplacementDeps(man, recovered, m);
      EarlierForeign(man, recovered, rootName, n - 1);
      RetiredHas(s, man, m.newOp);
      MemberIdle(s, man, root, n - 1);
      NotCreated(man, recovered, n - 1);
      NewHereAfter(Retired(s, man), Replacements(man, recovered, rootName, n - 1), Replacement(man, recovered, m),
                   NewDependency(man, m));
      GoodNext(Retired(s, man), Replacements(man, recovered, rootName, n - 1), Created(man, recovered, n - 1),
               Replacement(man, recovered, m));
      CreatedNext(man, recovered, n - 1);
    }
  }

  lemma RetiresWhole(s: State, man: Manifest, root: Uuid)
    requires WellFormed(s) && TopologyOk(s, man, root)
    ensures WholeQueues(s, Gone(man, 0)) && ClosedUnder(s, Gone(man, 0)) && WellFormed(Retired(s, man))
  {
    hide *;
    RetiredIs(s, man);
    forall i | 0 <= i < |s.rows| && s.rows[i].m.op in Gone(man, 0)
      ensures s.rows[i].status == Pending
      ensures forall j :: 0 <= j < |s.rows| && s.rows[j].m.obj == s.rows[i].m.obj ==> s.rows[j].m.op in Gone(man, 0)
    {
      OldOpsPending(s, man, root, i);
      var k :| 0 <= k < |man.members| && man.members[k].obj == s.rows[i].m.obj;
      forall j | 0 <= j < |s.rows| && s.rows[j].m.obj == s.rows[i].m.obj
        ensures s.rows[j].m.op in Gone(man, 0)
      {
        OwnRows(s, man, root, k, j);
      }
    }
    WholeIf(s, Gone(man, 0));
    forall i, d | 0 <= i < |s.rows| && d in Deps(s.rows[i].m) && d in Gone(man, 0)
      ensures s.rows[i].m.op in Gone(man, 0)
    {
      CompleteAt(s, man, root, i, d);
    }
    ClosedIf(s, Gone(man, 0));
    RetiredFormed(s, man);
  }

  lemma WholeIf(s: State, gone: set<Uuid>)
    requires forall i :: 0 <= i < |s.rows| && s.rows[i].m.op in gone ==> s.rows[i].status == Pending
    requires forall i :: 0 <= i < |s.rows| && s.rows[i].m.op in gone ==>
               forall j :: 0 <= j < |s.rows| && s.rows[j].m.obj == s.rows[i].m.obj ==> s.rows[j].m.op in gone
    ensures WholeQueues(s, gone)
  {
  }

  lemma ClosedIf(s: State, gone: set<Uuid>)
    requires forall i, d :: 0 <= i < |s.rows| && d in Deps(s.rows[i].m) && d in gone ==> s.rows[i].m.op in gone
    ensures ClosedUnder(s, gone)
  {
    hide Deps;
  }

  lemma CompleteAt(s: State, man: Manifest, root: Uuid, i: nat, d: Uuid)
    requires TopologyOk(s, man, root) && i < |s.rows| && d in Deps(s.rows[i].m) && OldOpOf(man, d)
    ensures OldOpOf(man, s.rows[i].m.op)
  {
    hide ManifestShape, MemberQueued, OldOpOf, Deps;
  }

  /** The transaction leaves every queue a chain and nobody waiting for a superseded operation. */
  lemma TransactionKeeps(s: State, man: Manifest, root: Uuid, recovered: Uuid, rootName: string)
    requires Invariant(s) && RowsValid(s) && TopologyOk(s, man, root) && MintedFresh(s, man, recovered)
             && ParentsFirst(man)
    requires ValidComponent(rootName)
    ensures var ms := Replacements(man, recovered, rootName, |man.members|);
            var t := EnqueueAll(Running(Retired(s, man), {}), ms);
            && t.Running? && t.s == Extend(Retired(s, man), ms)
            && Invariant(t.s) && (NoneStranded(s) ==> NoneStranded(t.s))
  {
    var ms := Replacements(man, recovered, rootName, |man.members|);
    hide *;
    InvariantFormed(s);
    RetiresWhole(s, man, root);
    RetiredIs(s, man);
    RetireKeeps(s, Gone(man, 0));
    ReplacementAccepted(s, man, root, recovered, rootName, |man.members|);
    GoodIs(Retired(s, man), ms, Created(man, recovered, |man.members|));
    CleanIs(Retired(s, man), ms, ms);
    TameKeeps(Retired(s, man), ms, ms, Created(man, recovered, |man.members|));
    if NoneStranded(s) {
      RetireStrandsNobody(s, Gone(man, 0));
    }
  }

  lemma ReplacementsSplit(man: Manifest, recovered: Uuid, rootName: string, n: nat)
    requires n <= |man.members|
    ensures n == 0 ==> Replacements(man, recovered, rootName, 0) == [] + [RootCreate(man, recovered, rootName)]
    ensures n == 0 ==> Created(man, recovered, 0) == {} + {recovered}
    ensures n > 0 ==> Replacements(man, recovered, rootName, n)
                      == Replacements(man, recovered, rootName, n - 1)
                        + [Replacement(man, recovered, man.members[n - 1])]
  {
  }
}
