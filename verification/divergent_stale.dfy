/** The same transaction when the outbox moved on since the plan was made. */
module DivergentStale {
  import opened Ids
  import opened Outbox
  import opened OutboxProgress
  import opened OutboxReplace
  import opened OutboxRetire
  import opened DivergentPlan
  import opened DivergentReplacement
  import opened DivergentTransaction

  /** The objects created in the place of the tree, by the operation that creates them. */
  lemma TreeCreateIs(man: TreeManifest, recoveredRoot: Uuid, rootName: string, k: nat)
    requires TreeShape(man, recoveredRoot) && k <= |man.members|
    ensures var ms := TreeCreates(man, recoveredRoot, rootName, |man.members|);
            && |ms| == |man.members| + 1 && ms[k].kind == Create
            && ms[k].obj == (if k == 0 then recoveredRoot else man.members[k - 1].recovered)
            && ms[k].op == (if k == 0 then man.newRoot else man.members[k - 1].newOp)
            && WaitsWithin(ms, k)
  {
    var ms := TreeCreates(man, recoveredRoot, rootName, |man.members|);
    hide *;
    CreateAt(man, recoveredRoot, rootName, |man.members|, k);
    if k == 0 {
      RootCreateIs(man, recoveredRoot, rootName);
      WaitsForNone(ms, 0);
    } else {
      CreateIs(man, man.members[k - 1]);
      var j := CreatesWaitForParents(man, recoveredRoot, rootName, k - 1);
      WaitsForOne(ms, k, j);
    }
  }

  lemma WaitsForOne(ms: seq<Mutation>, k: nat, j: nat)
    requires j < k < |ms| && Deps(ms[k]) == {ms[j].op}
    ensures WaitsWithin(ms, k)
  {
    assert ms[..k][j] == ms[j];
    hide Deps;
  }

  lemma WaitsForNone(ms: seq<Mutation>, k: nat)
    requires k < |ms| && Deps(ms[k]) == {}
    ensures WaitsWithin(ms, k)
  {
    hide Deps;
  }

  lemma TreeCreatesApart(man: TreeManifest, recoveredRoot: Uuid, rootName: string, j: nat, k: nat)
    requires TreeShape(man, recoveredRoot) && j < k <= |man.members|
    ensures var ms := TreeCreates(man, recoveredRoot, rootName, |man.members|);
            |ms| == |man.members| + 1 && ms[j].obj != ms[k].obj && ms[j].op != ms[k].op
  {
    hide *;
    TreeCreateIs(man, recoveredRoot, rootName, j);
    TreeCreateIs(man, recoveredRoot, rootName, k);
    FitsAt(man, recoveredRoot, k - 1);
    FitsIs(man, recoveredRoot, k - 1);
  }

  /** The creates are of different objects, and each waits for earlier ones only. */
  lemma TreeCreatesFit(man: TreeManifest, recoveredRoot: Uuid, rootName: string)
    requires TreeShape(man, recoveredRoot)
    ensures Creates(TreeCreates(man, recoveredRoot, rootName, |man.members|))
  {
    var ms := TreeCreates(man, recoveredRoot, rootName, |man.members|);
    hide *;
    TreeCreateIs(man, recoveredRoot, rootName, 0);
    forall k | 0 <= k < |ms|
      ensures ms[k].kind == Create && WaitsWithin(ms, k)
    {
      TreeCreateIs(man, recoveredRoot, rootName, k);
    }
    forall j, k | 0 <= j < k < |ms|
      ensures ms[j].obj != ms[k].obj && ms[j].op != ms[k].op
    {
      TreeCreatesApart(man, recoveredRoot, rootName, j, k);
    }
    CreatesIf(ms);
  }

  lemma CreatesIf(ms: seq<Mutation>)
    requires forall k :: 0 <= k < |ms| ==> ms[k].kind == Create && WaitsWithin(ms, k)
    requires forall j, k :: 0 <= j < k < |ms| ==> ms[j].obj != ms[k].obj && ms[j].op != ms[k].op
    ensures Creates(ms)
  {
    hide WaitsWithin;
  }

  /** Over any outbox that still has the plan's local operations pending, the transaction is accepted exactly when every
      create fits once they are retired. It then leaves alone every other operation of objects it does not create, and
      it leaves somebody waiting for a superseded operation exactly when one of those waits for a retired one. */
  lemma StaleTransaction(t: State, full: TreeManifest, recoveredRoot: Uuid, rootName: string)
    requires WellFormed(t) && NoneStranded(t) && TreeShape(full, recoveredRoot)
             && PendingOps(t, LocalOps(full.members, |full.members|))
    ensures var gone, ms := LocalOps(full.members, |full.members|),
            TreeCreates(full, recoveredRoot, rootName, |full.members|);
            var b := EnqueueAll(Running(Marked(t, gone), {}), ms);
            && (b.Running? <==> CanCreateAll(Marked(t, gone), ms))
            && (b.Running? ==> (NoneStranded(b.s) <==> !LeavesBehind(t, gone, ms)))
            && (b.Running? ==> forall i :: 0 <= i < |t.rows| && t.rows[i].m.op !in gone
                                           && !Names(ms, t.rows[i].m.obj) ==>
                  i < |b.s.rows| && b.s.rows[i] == t.rows[i])
  {
    var gone, ms := LocalOps(full.members, |full.members|), TreeCreates(full, recoveredRoot, rootName, |full.members|);
    hide *;
    TreeCreatesFit(full, recoveredRoot, rootName);
    MarkedPending(t, gone);
    ReplaceAll(Marked(t, gone), ms);
    if CanCreateAll(Marked(t, gone), ms) {
      ReplaceStrandsIff(t, gone, ms);
      forall i | 0 <= i < |t.rows| && t.rows[i].m.op !in gone && !Names(ms, t.rows[i].m.obj)
        ensures var b := EnqueueAll(Running(Marked(t, gone), {}), ms);
                b.Running? && i < |b.s.rows| && b.s.rows[i] == t.rows[i]
      {
        Untouched(t, gone, ms, i);
      }
    }
  }

  /** If operations were only queued since the plan was made, those left behind are among them. */
  lemma OnlyLaterLeft(s: State, applied: map<Uuid, Uuid>, root: Uuid, recoveredRoot: Uuid, mint: nat -> Uuid, k: nat,
                      cs: seq<Candidate>, man: TreeManifest, full: TreeManifest, rootName: string, t: State, i: nat)
    requires DivergentTransaction.Ready(s, applied, root, recoveredRoot, mint, k, cs, man, full) && s.rows <= t.rows
    requires LeftBehind(t, LocalOps(full.members, |full.members|),
                        TreeCreates(full, recoveredRoot, rootName, |full.members|), i)
    ensures |s.rows| <= i < |t.rows|
  {
    assert forall x :: 0 <= x < |s.rows| ==> t.rows[x] == s.rows[x];
    RetiresWholeQueues(s, applied, root, recoveredRoot, mint, k, cs, man, full);
    hide LocalOps, TreeCreates, Names, WholeQueues, Deps;
  }
}
