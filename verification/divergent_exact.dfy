/** What every plan for the same candidates has in common, so that planning fails only when there is no plan. */
module DivergentExact {
  import opened Ids
  import opened Naming
  import opened Optional
  import opened Outbox
  import opened RecursiveRecovery
  import opened DivergentPlan

  // ---------------------------------------------------------------- the history of a local member

  predicate Increasing(a: seq<nat>) {
    forall i, j :: 0 <= i < j < |a| ==> a[i] < a[j]
  }

  lemma {:induction false} SameIncreasing(a: seq<nat>, b: seq<nat>)
    requires Increasing(a) && Increasing(b) && forall x: nat :: x in a <==> x in b
    ensures a == b
  {
    assert (|b| > 0 ==> b[0] in a) && (|a| > 0 ==> a[0] in b);
    if a != [] && b != [] {
      var i, j := |a| - 1, |b| - 1;
      assert a[i] in b && b[j] in a;
      assert a[i] == b[j];
      WithoutLast(a);
      WithoutLast(b);
      forall x: nat
        ensures x in a[..i] <==> x in b[..j]
      {
        assert x in a <==> x in b;
        assert x in a[..|a| - 1] <==> x in a && x != a[|a| - 1];
      }
      SameIncreasing(a[..i], b[..j]);
      assert a == a[..i] + [a[i]] && b == b[..j] + [b[j]];
    }
  }

  lemma WithoutLast(a: seq<nat>)
    requires a != [] && Increasing(a)
    ensures Increasing(a[..|a| - 1]) && forall x: nat :: x in a[..|a| - 1] <==> x in a && x != a[|a| - 1]
  {
  }

  lemma {:induction false} HistoryIncreasing(s: State, obj: Uuid, n: nat)
    requires n <= |s.rows|
    ensures Increasing(History(s, obj, n)) && forall i :: i in History(s, obj, n) ==> i < n
  {
    if n > 0 {
      HistoryIncreasing(s, obj, n - 1);
      var h := History(s, obj, n - 1);
      assert forall i :: 0 <= i < |h| ==> h[i] in h;
    }
  }

  /** The rows of a member's create and of its first n updates. */
  function Positions(s: State, m: Member, n: nat): (p: seq<nat>)
    requires n <= |m.chain|
    ensures |p| == n + 1
  {
    if n == 0 then [IndexOf(s, m.oldOp, |s.rows|)]
    else Positions(s, m, n - 1) + [IndexOf(s, m.chain[n - 1].op, |s.rows|)]
  }

  lemma {:induction false} PositionAt(s: State, m: Member, n: nat, k: nat)
    requires k <= n <= |m.chain|
    ensures Positions(s, m, n)[k] == IndexOf(s, if k == 0 then m.oldOp else m.chain[k - 1].op, |s.rows|)
  {
    hide IndexOf;
    if n > k {
      PositionAt(s, m, n - 1, k);
    }
  }

  lemma CreateAtRow(s: State, m: Member, parentOp: Uuid)
    requires LocalQueued(s, m, parentOp)
    ensures CreateRow(s, IndexOf(s, m.oldOp, |s.rows|), m, parentOp) && ValidOperationId(m.oldOp)
    ensures FinalOf(m) == m.finalBlob && (m.otype == Folder ==> m.chain == [])
  {
    hide CreateRow, UpdateRow, IndexOf, FinalOf, Own, ValidOperationId;
  }

  lemma UpdateAtRow(s: State, m: Member, parentOp: Uuid, k: nat)
    requires LocalQueued(s, m, parentOp) && k < |m.chain|
    ensures UpdateRow(s, IndexOf(s, m.chain[k].op, |s.rows|), m, k)
  {
    hide CreateRow, UpdateRow, IndexOf, FinalOf, Own, ValidOperationId;
  }

  lemma UpdateRowIs(s: State, i: nat, m: Member, k: nat)
    requires k < |m.chain| && UpdateRow(s, i, m, k)
    ensures i < |s.rows| && s.rows[i].status == Pending && s.rows[i].m.op == m.chain[k].op && s.rows[i].m.obj == m.obj
    ensures s.rows[i].m.kind == Update && s.rows[i].m.otype == Note && s.rows[i].m.blob == m.chain[k].hash
    ensures Deps(s.rows[i].m) == {if k == 0 then m.oldOp else m.chain[k - 1].op}
  {
    assert Previous(m, k) == if k == 0 then m.oldOp else m.chain[k - 1].op;
    hide Deps, Previous;
  }

  lemma CreateRowIs(s: State, i: nat, m: Member, parentOp: Uuid)
    requires CreateRow(s, i, m, parentOp)
    ensures i < |s.rows| && s.rows[i].status == Pending && s.rows[i].m.op == m.oldOp && s.rows[i].m.obj == m.obj
            && s.rows[i].m.kind == Create
    ensures s.rows[i].m.otype == m.otype && s.rows[i].m.parent == Some(m.parent) && s.rows[i].m.name == m.name
    ensures s.rows[i].m.blob == (if m.otype == Folder then [] else m.createBlob) && Deps(s.rows[i].m) == {parentOp}
  {
    hide Deps;
  }

  lemma PositionBelow(s: State, op: Uuid, i: nat)
    requires WellFormed(s) && i < |s.rows| && op in Deps(s.rows[i].m)
    ensures IndexOf(s, op, |s.rows|) < i
  {
    assert HasOp(s, i, op);
    var j :| 0 <= j < i && s.rows[j].m.op == op;
    RowAt(s, j, op);
  }

  lemma {:induction false} PositionsIncreasing(s: State, m: Member, parentOp: Uuid, n: nat)
    requires WellFormed(s) && LocalQueued(s, m, parentOp) && n <= |m.chain|
    ensures Increasing(Positions(s, m, n))
  {
    hide *;
    if n == 0 {
      PositionsNext(s, m, 0);
      One(Positions(s, m, 0));
    } else {
      PositionsIncreasing(s, m, parentOp, n - 1);
      PositionsNext(s, m, n);
      var i := IndexOf(s, m.chain[n - 1].op, |s.rows|);
      UpdateAtRow(s, m, parentOp, n - 1);
      UpdateRowIs(s, i, m, n - 1);
      PositionAt(s, m, n - 1, n - 1);
      PositionBelow(s, if n == 1 then m.oldOp else m.chain[n - 2].op, i);
      IncreasingOn(Positions(s, m, n - 1), i);
    }
  }

  lemma PositionsNext(s: State, m: Member, n: nat)
    requires n <= |m.chain|
    ensures Positions(s, m, n) == if n == 0 then [IndexOf(s, m.oldOp, |s.rows|)]
                                  else Positions(s, m, n - 1) + [IndexOf(s, m.chain[n - 1].op, |s.rows|)]
  {
    hide IndexOf;
  }

  lemma One(a: seq<nat>)
    requires |a| == 1
    ensures Increasing(a)
  {
  }

  lemma IncreasingOn(a: seq<nat>, x: nat)
    requires Increasing(a) && (a != [] ==> a[|a| - 1] < x)
    ensures Increasing(a + [x])
  {
  }

  lemma PositionIsRow(s: State, m: Member, parentOp: Uuid, k: nat)
    requires WellFormed(s) && LocalQueued(s, m, parentOp) && k <= |m.chain|
    ensures var x := Positions(s, m, |m.chain|)[k]; x < |s.rows| && s.rows[x].m.obj == m.obj
  {
    hide *;
    PositionAt(s, m, |m.chain|, k);
    var x := Positions(s, m, |m.chain|)[k];
    if k == 0 {
      CreateAtRow(s, m, parentOp);
      CreateRowIs(s, x, m, parentOp);
    } else {
      UpdateAtRow(s, m, parentOp, k - 1);
      UpdateRowIs(s, x, m, k - 1);
    }
  }

  lemma PositionsHave(s: State, m: Member, parentOp: Uuid, x: nat)
    requires WellFormed(s) && LocalQueued(s, m, parentOp)
    ensures x in Positions(s, m, |m.chain|) <==> x < |s.rows| && s.rows[x].m.obj == m.obj
  {
    var p := Positions(s, m, |m.chain|);
    hide *;
    forall k | 0 <= k < |p|
      ensures p[k] < |s.rows| && s.rows[p[k]].m.obj == m.obj
    {
      PositionIsRow(s, m, parentOp, k);
    }
    if x < |s.rows| && s.rows[x].m.obj == m.obj {
      OwnRow(s, m, parentOp, x);
      RowAt(s, x, s.rows[x].m.op);
      OwnPosition(s, m, s.rows[x].m.op);
    }
  }

  lemma OwnPosition(s: State, m: Member, op: Uuid)
    requires Own(m, op)
    ensures IndexOf(s, op, |s.rows|) in Positions(s, m, |m.chain|)
  {
    var p := Positions(s, m, |m.chain|);
    if op == m.oldOp {
      PositionAt(s, m, |m.chain|, 0);
      assert p[0] in p;
    } else {
      var k :| 0 <= k < |m.chain| && m.chain[k].op == op;
      PositionAt(s, m, |m.chain|, k + 1);
      assert p[k + 1] in p;
    }
  }

  /** The history of a queued object is its create and then its updates, in order. */
  lemma LocalHistory(s: State, m: Member, parentOp: Uuid)
    requires WellFormed(s) && LocalQueued(s, m, parentOp)
    ensures History(s, m.obj, |s.rows|) == Positions(s, m, |m.chain|)
  {
    hide *;
    HistoryIncreasing(s, m.obj, |s.rows|);
    PositionsIncreasing(s, m, parentOp, |m.chain|);
    forall x: nat
      ensures x in History(s, m.obj, |s.rows|) <==> x in Positions(s, m, |m.chain|)
    {
      HistoryIs(s, m.obj, |s.rows|, x);
      PositionsHave(s, m, parentOp, x);
    }
    SameIncreasing(History(s, m.obj, |s.rows|), Positions(s, m, |m.chain|));
  }

  /** What is queued of an object is queued in one way only. */
  lemma LocalUnique(s: State, a: Member, b: Member, parentA: Uuid, parentB: Uuid)
    requires WellFormed(s) && LocalQueued(s, a, parentA) && LocalQueued(s, b, parentB) && a.obj == b.obj
    ensures a.oldOp == b.oldOp && |a.chain| == |b.chain|
            && forall k :: 0 <= k < |a.chain| ==> a.chain[k].op == b.chain[k].op
  {
    hide *;
    LocalHistory(s, a, parentA);
    LocalHistory(s, b, parentB);
    PositionAt(s, a, |a.chain|, 0);
    PositionAt(s, b, |b.chain|, 0);
    CreateAtRow(s, a, parentA);
    CreateAtRow(s, b, parentB);
    CreateRowIs(s, IndexOf(s, a.oldOp, |s.rows|), a, parentA);
    CreateRowIs(s, IndexOf(s, b.oldOp, |s.rows|), b, parentB);
    forall k | 0 <= k < |a.chain|
      ensures a.chain[k].op == b.chain[k].op
    {
      PositionAt(s, a, |a.chain|, k + 1);
      PositionAt(s, b, |b.chain|, k + 1);
      UpdateAtRow(s, a, parentA, k);
      UpdateAtRow(s, b, parentB, k);
      UpdateRowIs(s, IndexOf(s, a.chain[k].op, |s.rows|), a, k);
      UpdateRowIs(s, IndexOf(s, b.chain[k].op, |s.rows|), b, k);
    }
  }

  /** Some queued history makes the candidate a local member. */
  ghost predicate LocalPossible(s: State, c: Candidate, parentOp: Uuid) {
    exists oldOp, blob, chain :: LocalQueued(s, QueuedAs(c, oldOp, blob, chain), parentOp)
  }

  /** Row n of the history is an update that waits for the row before it. */
  predicate GoesOn(s: State, h: seq<nat>, n: nat) {
    1 <= n < |h| && h[n - 1] < |s.rows| && h[n] < |s.rows| && UpdateOk(s, h[n], s.rows[h[n - 1]].m.op)
  }

  lemma GoesOnIs(s: State, h: seq<nat>, n: nat)
    ensures GoesOn(s, h, n) <==> 1 <= n < |h| && h[n - 1] < |s.rows| && h[n] < |s.rows|
                                 && UpdateOk(s, h[n], s.rows[h[n - 1]].m.op)
  {
  }

  /** What the planner checks of an object's history. */
  ghost predicate HistoryFits(s: State, c: Candidate, parentOp: Uuid, h: seq<nat>) {
    |h| >= 1 && CreateFits(s, c, parentOp, h[0]) && FinalFits(s, c, h) && forall n :: 1 <= n < |h| ==> GoesOn(s, h, n)
  }

  lemma ValidRow(s: State, i: nat)
    requires RowsValid(s) && i < |s.rows|
    ensures var r := s.rows[i].m;
            ValidOperationId(r.op) && (r.otype == Note && (r.kind == Create || r.kind == Update) ==>
                                         |r.blob| == HASH_SIZE)
  {
    assert ValidMutation(s.rows[i].m);
    hide ValidObjectId, ValidOperationId, ValidComponent;
  }

  lemma HistoryRow(s: State, m: Member, parentOp: Uuid, k: nat)
    requires WellFormed(s) && LocalQueued(s, m, parentOp) && k <= |m.chain|
    ensures var h := History(s, m.obj, |s.rows|);
            && |h| == |m.chain| + 1 && h[k] < |s.rows|
            && h[k] == IndexOf(s, if k == 0 then m.oldOp else m.chain[k - 1].op, |s.rows|)
            && s.rows[h[k]].m.op == if k == 0 then m.oldOp else m.chain[k - 1].op
  {
    hide *;
    LocalHistory(s, m, parentOp);
    PositionAt(s, m, |m.chain|, k);
    PositionIsRow(s, m, parentOp, k);
  }

  lemma RowsInOrder(s: State, m: Member, parentOp: Uuid, k: nat)
    requires WellFormed(s) && RowsValid(s) && LocalQueued(s, m, parentOp) && k < |m.chain|
    ensures var h := History(s, m.obj, |s.rows|);
            && |h| == |m.chain| + 1 && h[k] < |s.rows| && h[k + 1] < |s.rows|
            && UpdateOk(s, h[k + 1], s.rows[h[k]].m.op)
            && s.rows[h[k + 1]].m.blob == m.chain[k].hash
  {
    hide *;
    HistoryRow(s, m, parentOp, k);
    HistoryRow(s, m, parentOp, k + 1);
    var i := IndexOf(s, m.chain[k].op, |s.rows|);
    UpdateAtRow(s, m, parentOp, k);
    UpdateRowIs(s, i, m, k);
    ValidRow(s, i);
    UpdateOkIf(s, i, if k == 0 then m.oldOp else m.chain[k - 1].op);
  }

  lemma UpdateOkIf(s: State, i: nat, previous: Uuid)
    requires i < |s.rows| && s.rows[i].status == Pending && Deps(s.rows[i].m) == {previous}
    requires var u := s.rows[i].m;
             u.kind == Update && u.otype == Note && |u.blob| == HASH_SIZE && ValidOperationId(u.op)
    ensures UpdateOk(s, i, previous)
  {
    hide Deps, ValidOperationId;
  }

  lemma FinalIs(m: Member)
    ensures FinalOf(m) == if m.chain == [] then m.createBlob else m.chain[|m.chain| - 1].hash
  {
  }

  /** A member queued as it should be passes every check of the planner. */
  lemma LocalFits(s: State, c: Candidate, parentOp: Uuid)
    requires WellFormed(s) && RowsValid(s) && LocalPossible(s, c, parentOp) && (c.otype == Folder ==> c.blob == [])
    ensures HistoryFits(s, c, parentOp, History(s, c.obj, |s.rows|))
  {
    var oldOp, blob, chain :| LocalQueued(s, QueuedAs(c, oldOp, blob, chain), parentOp);
    var m := QueuedAs(c, oldOp, blob, chain);
    QueuedAsIs(c, oldOp, blob, chain);
    hide *;
    MemberFits(s, c, m, parentOp);
  }

  lemma QueuedAsIs(c: Candidate, oldOp: Uuid, blob: Hash, chain: seq<ChainOp>)
    ensures ForCandidate(c, QueuedAs(c, oldOp, blob, chain))
  {
  }

  predicate ForCandidate(c: Candidate, m: Member) {
    m.obj == c.obj && m.parent == c.parent && m.otype == c.otype && m.name == c.name && m.finalBlob == c.blob
  }

  lemma ForCandidateIs(c: Candidate, m: Member)
    requires ForCandidate(c, m)
    ensures m.obj == c.obj && m.parent == c.parent && m.otype == c.otype && m.name == c.name && m.finalBlob == c.blob
  {
  }

  /** The planner's checks on the first row. */
  predicate CreateFits(s: State, c: Candidate, parentOp: Uuid, i: nat) {
    && i < |s.rows| && s.rows[i].status == Pending && Deps(s.rows[i].m) == {parentOp}
    && var create := s.rows[i].m;
       && ValidOperationId(create.op) && create.otype == c.otype && create.parent == Some(c.parent)
       && create.name == c.name
       && create.kind == Create && (if c.otype == Folder then create.blob == [] else |create.blob| == HASH_SIZE)
  }

  lemma FirstFits(s: State, c: Candidate, m: Member, parentOp: Uuid)
    requires WellFormed(s) && RowsValid(s) && LocalQueued(s, m, parentOp) && ForCandidate(c, m)
    ensures var h := History(s, c.obj, |s.rows|); |h| >= 1 && CreateFits(s, c, parentOp, h[0])
  {
    var i := IndexOf(s, m.oldOp, |s.rows|);
    hide WellFormed, RowsValid, LocalQueued, History, IndexOf, ValidOperationId, Deps, CreateRow;
    HistoryRow(s, m, parentOp, 0);
    CreateAtRow(s, m, parentOp);
    CreateRowIs(s, i, m, parentOp);
    ValidRow(s, i);
  }

  /** The planner's check on the last row. */
  predicate FinalFits(s: State, c: Candidate, h: seq<nat>) {
    |h| >= 1 && (c.otype == Folder ==> |h| == 1) && h[|h| - 1] < |s.rows| && s.rows[h[|h| - 1]].m.blob == c.blob
  }

  lemma LastFits(s: State, c: Candidate, m: Member, parentOp: Uuid)
    requires WellFormed(s) && RowsValid(s) && LocalQueued(s, m, parentOp) && ForCandidate(c, m)
             && (c.otype == Folder ==> c.blob == [])
    ensures FinalFits(s, c, History(s, c.obj, |s.rows|))
  {
    var i := IndexOf(s, m.oldOp, |s.rows|);
    hide WellFormed, RowsValid, LocalQueued, History, IndexOf, ValidOperationId, Deps, CreateRow, FinalOf, UpdateOk;
    HistoryRow(s, m, parentOp, |m.chain|);
    CreateAtRow(s, m, parentOp);
    CreateRowIs(s, i, m, parentOp);
    FinalIs(m);
    if m.chain != [] {
      RowsInOrder(s, m, parentOp, |m.chain| - 1);
    }
  }

  lemma RowsGoOn(s: State, m: Member, parentOp: Uuid)
    requires WellFormed(s) && RowsValid(s) && LocalQueued(s, m, parentOp)
    ensures var h := History(s, m.obj, |s.rows|);
            forall n :: 1 <= n < |h| ==> GoesOn(s, h, n)
  {
    var h := History(s, m.obj, |s.rows|);
    hide *;
    HistoryRow(s, m, parentOp, 0);
    forall n | 1 <= n < |h|
      ensures GoesOn(s, h, n)
    {
      RowsInOrder(s, m, parentOp, n - 1);
      GoesOnIs(s, h, n);
    }
  }

  lemma MemberFits(s: State, c: Candidate, m: Member, parentOp: Uuid)
    requires WellFormed(s) && RowsValid(s) && LocalQueued(s, m, parentOp) && ForCandidate(c, m)
             && (c.otype == Folder ==> c.blob == [])
    ensures HistoryFits(s, c, parentOp, History(s, c.obj, |s.rows|))
  {
    hide *;
    ForCandidateIs(c, m);
    FirstFits(s, c, m, parentOp);
    LastFits(s, c, m, parentOp);
    RowsGoOn(s, m, parentOp);
    HistoryFitsIf(s, c, parentOp, History(s, c.obj, |s.rows|));
  }

  lemma HistoryFitsIf(s: State, c: Candidate, parentOp: Uuid, h: seq<nat>)
    requires |h| >= 1 && CreateFits(s, c, parentOp, h[0]) && FinalFits(s, c, h)
             && forall n :: 1 <= n < |h| ==> GoesOn(s, h, n)
    ensures HistoryFits(s, c, parentOp, h)
  {
    hide CreateFits, GoesOn, FinalFits;
  }

  // ---------------------------------------------------------------- plans agree

  ghost predicate PlanFor(s: State, applied: map<Uuid, Uuid>, op: Uuid, root: Uuid, recoveredRoot: Uuid,
                          mint: nat -> Uuid, cs: seq<Candidate>, k: nat, man: TreeManifest) {
    man.operation == op && Planned(s, applied, root, recoveredRoot, mint, k, cs, man)
  }

  ghost predicate NoPlan(s: State, applied: map<Uuid, Uuid>, op: Uuid, root: Uuid, recoveredRoot: Uuid,
                         mint: nat -> Uuid, cs: seq<Candidate>) {
    forall k, man :: !PlanFor(s, applied, op, root, recoveredRoot, mint, cs, k, man)
  }

  /** The same in everything a plan does not draw anew. */
  predicate SameMember(a: TreeMember, b: TreeMember) {
    && a.source == b.source && a.sourceParent == b.sourceParent && a.name == b.name && a.relative == b.relative
    && a.revision == b.revision
    && a.sourceOp == b.sourceOp && |a.chain| == |b.chain|
    && forall k :: 0 <= k < |a.chain| ==> a.chain[k].op == b.chain[k].op
  }

  predicate Agrees(ms: seq<TreeMember>, ns: seq<TreeMember>) {
    |ms| <= |ns| && forall j :: 0 <= j < |ms| ==> SameMember(ms[j], ns[j])
  }

  /** Every plan starts like this. */
  ghost predicate AllAgree(s: State, applied: map<Uuid, Uuid>, op: Uuid, root: Uuid, recoveredRoot: Uuid,
                           mint: nat -> Uuid, cs: seq<Candidate>, ms: seq<TreeMember>) {
    forall k, man :: PlanFor(s, applied, op, root, recoveredRoot, mint, cs, k, man) ==> Agrees(ms, man.members)
  }

  lemma NothingAgrees(s: State, applied: map<Uuid, Uuid>, op: Uuid, root: Uuid, recoveredRoot: Uuid, mint: nat -> Uuid,
                      cs: seq<Candidate>)
    ensures AllAgree(s, applied, op, root, recoveredRoot, mint, cs, [])
  {
    hide PlanFor;
  }

  lemma OriginSame(s: State, applied: map<Uuid, Uuid>, mint: nat -> Uuid, c: Candidate, a: TreeMember, b: TreeMember,
                   k: nat, n: nat, p: Uuid, q: Uuid)
    requires WellFormed(s) && FromCandidate(c, a) && FromCandidate(c, b) && Origin(s, applied, mint, k, a, p)
             && Origin(s, applied, mint, n, b, q)
    ensures SameMember(a, b)
  {
    hide WellFormed, LocalQueued, OpenFor, DrawnBelow, ValidOperationId;
    if a.revision == 0 {
      LocalUnique(s, AsQueued(a), AsQueued(b), p, q);
    }
  }

  /** The place of a planned member, looked up in what was planned before. */
  ghost predicate PlaceFits(ms: seq<TreeMember>, root: Uuid, c: Candidate, relatives: map<Uuid, Path>,
                            sourceOps: map<Uuid, Uuid>) {
    && !IsSource(ms, c.obj) && (c.parent == root || IsSource(ms, c.parent)) && c.parent in relatives
    && c.parent in sourceOps
    && c.relative == relatives[c.parent] + [c.name] && c.depth == 1 + |relatives[c.parent]|
  }

  lemma PlacedFits(ms: seq<TreeMember>, ns: seq<TreeMember>, op: Uuid, root: Uuid, recoveredRoot: Uuid, c: Candidate,
                   parentOp: Uuid, relatives: map<Uuid, Path>, sourceOps: map<Uuid, Uuid>)
    requires Agrees(ms, ns) && |ms| < |ns| && IdsApart(ns, root, recoveredRoot)
             && PlacedUnder(ns, op, root, recoveredRoot, |ms|, parentOp)
    requires FromCandidate(c, ns[|ms|]) && ns[|ms|].depth == |ns[|ms|].relative|
    requires Holds(relatives, ms, root, [], RelativeOf) && Holds(sourceOps, ms, root, op, SourceOpOf)
    ensures PlaceFits(ms, root, c, relatives, sourceOps) && sourceOps[c.parent] == parentOp
  {
    var i := |ms|;
    forall j | 0 <= j < i
      ensures ms[j].source == ns[j].source && ms[j].source != c.obj
    {
      assert SameMember(ms[j], ns[j]);
    }
    if !(ns[i].sourceParent == root && ns[i].recoveredParent == recoveredRoot && ns[i].relative == [ns[i].name]
         && parentOp == op) {
      var j :| 0 <= j < i && Below(ns[j], ns[i]) && parentOp == ns[j].sourceOp;
      assert SameMember(ms[j], ns[j]) && ms[j].source == c.parent;
      assert relatives[c.parent] == RelativeOf(ms[j]) && sourceOps[c.parent] == SourceOpOf(ms[j]);
    }
    hide Agrees, IdsApart, PlacedUnder;
  }

  /** What a plan says of the next candidate. */
  lemma NextPlanned(s: State, applied: map<Uuid, Uuid>, op: Uuid, root: Uuid, recoveredRoot: Uuid, mint: nat -> Uuid,
                    cs: seq<Candidate>, k: nat, man: TreeManifest, i: nat) returns (parentOp: Uuid)
    requires PlanFor(s, applied, op, root, recoveredRoot, mint, cs, k, man) && i < |cs|
    ensures i < |man.members| && IdsApart(man.members, root, recoveredRoot) && CandidateOk(cs[i])
            && FromCandidate(cs[i], man.members[i])
    ensures man.members[i].depth == |man.members[i].relative| && man.members[i].recovered != recoveredRoot
    ensures PlacedUnder(man.members, op, root, recoveredRoot, i, parentOp)
            && Origin(s, applied, mint, k, man.members[i], parentOp)
  {
    hide CandidateOk, FromCandidate, PlacedUnder, Origin, DependentsClosed;
    assert MemberPlanned(s, applied, op, root, recoveredRoot, mint, k, cs[i], man.members, i);
    parentOp :| PlacedUnder(man.members, op, root, recoveredRoot, i, parentOp)
        && Origin(s, applied, mint, k, man.members[i], parentOp);
  }

  ghost predicate HasOrigin(s: State, applied: map<Uuid, Uuid>, mint: nat -> Uuid, c: Candidate, parentOp: Uuid,
                            recoveredRoot: Uuid) {
    exists k, m :: FromCandidate(c, m) && m.recovered != recoveredRoot && Origin(s, applied, mint, k, m, parentOp)
  }

  ghost predicate StepOk(s: State, applied: map<Uuid, Uuid>, root: Uuid, recoveredRoot: Uuid, mint: nat -> Uuid,
                         ms: seq<TreeMember>, c: Candidate, relatives: map<Uuid, Path>, sourceOps: map<Uuid, Uuid>) {
    CandidateOk(c) && PlaceFits(ms, root, c, relatives, sourceOps)
        && HasOrigin(s, applied, mint, c, sourceOps[c.parent], recoveredRoot)
  }

  lemma PlanStepOk(s: State, applied: map<Uuid, Uuid>, op: Uuid, root: Uuid, recoveredRoot: Uuid, mint: nat -> Uuid,
                   cs: seq<Candidate>, ms: seq<TreeMember>, relatives: map<Uuid, Path>, sourceOps: map<Uuid, Uuid>,
                   k: nat, man: TreeManifest)
    requires PlanFor(s, applied, op, root, recoveredRoot, mint, cs, k, man) && Agrees(ms, man.members) && |ms| < |cs|
    requires Holds(relatives, ms, root, [], RelativeOf) && Holds(sourceOps, ms, root, op, SourceOpOf)
    ensures StepOk(s, applied, root, recoveredRoot, mint, ms, cs[|ms|], relatives, sourceOps)
    ensures PlaceFits(ms, root, cs[|ms|], relatives, sourceOps)
    ensures |ms| < |man.members| && FromCandidate(cs[|ms|], man.members[|ms|])
    ensures Origin(s, applied, mint, k, man.members[|ms|], sourceOps[cs[|ms|].parent])
  {
    var c := cs[|ms|];
    var p := NextPlanned(s, applied, op, root, recoveredRoot, mint, cs, k, man, |ms|);
    PlacedFits(ms, man.members, op, root, recoveredRoot, c, p, relatives, sourceOps);
    hide PlanFor, Agrees, Holds, CandidateOk, FromCandidate, Origin, IdsApart, PlacedUnder, IsSource;
  }

  /** Either the next candidate meets every check, or there is no plan at all. */
  lemma StepRules(s: State, applied: map<Uuid, Uuid>, op: Uuid, root: Uuid, recoveredRoot: Uuid, mint: nat -> Uuid,
                  cs: seq<Candidate>, ms: seq<TreeMember>, relatives: map<Uuid, Path>, sourceOps: map<Uuid, Uuid>)
    requires AllAgree(s, applied, op, root, recoveredRoot, mint, cs, ms) && |ms| < |cs|
    requires Holds(relatives, ms, root, [], RelativeOf) && Holds(sourceOps, ms, root, op, SourceOpOf)
    ensures NoPlan(s, applied, op, root, recoveredRoot, mint, cs)
            || StepOk(s, applied, root, recoveredRoot, mint, ms, cs[|ms|], relatives, sourceOps)
  {
    hide PlanFor, Agrees, Holds, StepOk;
    if !NoPlan(s, applied, op, root, recoveredRoot, mint, cs) {
      var k, man :| PlanFor(s, applied, op, root, recoveredRoot, mint, cs, k, man);
      PlanStepOk(s, applied, op, root, recoveredRoot, mint, cs, ms, relatives, sourceOps, k, man);
    }
  }

  lemma AgreesOn(ms: seq<TreeMember>, ns: seq<TreeMember>, m: TreeMember)
    requires Agrees(ms, ns) && |ms| < |ns| && SameMember(m, ns[|ms|])
    ensures Agrees(ms + [m], ns)
  {
    hide SameMember;
  }

  /** Every plan goes on like the planner. */
  lemma AgreeNext(s: State, applied: map<Uuid, Uuid>, op: Uuid, root: Uuid, recoveredRoot: Uuid, mint: nat -> Uuid,
                  cs: seq<Candidate>, ms: seq<TreeMember>, relatives: map<Uuid, Path>, sourceOps: map<Uuid, Uuid>,
                  m: TreeMember, n: nat, parentOp: Uuid)
    requires WellFormed(s) && AllAgree(s, applied, op, root, recoveredRoot, mint, cs, ms) && |ms| < |cs|
    requires Holds(relatives, ms, root, [], RelativeOf) && Holds(sourceOps, ms, root, op, SourceOpOf)
    requires FromCandidate(cs[|ms|], m) && Origin(s, applied, mint, n, m, parentOp)
    ensures AllAgree(s, applied, op, root, recoveredRoot, mint, cs, ms + [m])
  {
    hide PlanFor, Agrees, Holds, FromCandidate, Origin, SameMember, WellFormed, StepOk, PlaceFits;
    forall k, man | PlanFor(s, applied, op, root, recoveredRoot, mint, cs, k, man)
      ensures Agrees(ms + [m], man.members)
    {
      PlanStepOk(s, applied, op, root, recoveredRoot, mint, cs, ms, relatives, sourceOps, k, man);
      PlaceKeys(ms, root, cs[|ms|], relatives, sourceOps);
      OriginSame(s, applied, mint, cs[|ms|], m, man.members[|ms|], n, k, parentOp, sourceOps[cs[|ms|].parent]);
      AgreesOn(ms, man.members, m);
    }
  }

  lemma PlaceKeys(ms: seq<TreeMember>, root: Uuid, c: Candidate, relatives: map<Uuid, Path>, sourceOps: map<Uuid, Uuid>)
    requires PlaceFits(ms, root, c, relatives, sourceOps)
    ensures c.parent in relatives && c.parent in sourceOps
  {
    hide IsSource;
  }

  // ---------------------------------------------------------------- identities and dependents

  lemma RecoveredOfLocal(s: State, applied: map<Uuid, Uuid>, mint: nat -> Uuid, k: nat, c: Candidate, m: TreeMember,
                         parentOp: Uuid)
    requires FromCandidate(c, m) && Origin(s, applied, mint, k, m, parentOp)
    ensures m.revision == 0 <==> c.obj !in s.baselines
    ensures m.revision == 0 ==> m.recovered == c.obj
    ensures m.revision > 0 ==> DrawnBelow(mint, m.recovered, k)
  {
    hide LocalQueued, OpenFor, DrawnBelow, ValidOperationId;
  }

  lemma DrawnIsNew(s: State, root: Uuid, recoveredRoot: Uuid, newRoot: Uuid, cs: seq<Candidate>, mint: nat -> Uuid,
                   x: Uuid, k: nat)
    requires MintNew(s, root, recoveredRoot, newRoot, cs, mint) && DrawnBelow(mint, x, k)
    ensures x != recoveredRoot && x != mint(k) && forall i :: 0 <= i < |cs| ==> x != cs[i].obj
  {
    var j: nat :| j < k && x == mint(j);
  }

  lemma DrawnNext(s: State, root: Uuid, recoveredRoot: Uuid, newRoot: Uuid, cs: seq<Candidate>, mint: nat -> Uuid,
                  k: nat)
    requires MintNew(s, root, recoveredRoot, newRoot, cs, mint)
    ensures mint(k) != recoveredRoot && forall i :: 0 <= i < |cs| ==> mint(k) != cs[i].obj
  {
  }

  lemma PlannedOrigin(s: State, applied: map<Uuid, Uuid>, op: Uuid, root: Uuid, recoveredRoot: Uuid, mint: nat -> Uuid,
                      k: nat, cs: seq<Candidate>, ms: seq<TreeMember>, j: nat) returns (parentOp: Uuid)
    requires PlannedSoFar(s, applied, op, root, recoveredRoot, mint, k, cs, ms) && j < |ms|
    ensures j < |cs| && FromCandidate(cs[j], ms[j]) && Origin(s, applied, mint, k, ms[j], parentOp)
    ensures PlacedUnder(ms, op, root, recoveredRoot, j, parentOp) && IdsApart(ms, root, recoveredRoot)
  {
    hide CandidateOk, FromCandidate, PlacedUnder, Origin, IdsApart;
    assert MemberPlanned(s, applied, op, root, recoveredRoot, mint, k, cs[j], ms, j);
    parentOp :| PlacedUnder(ms, op, root, recoveredRoot, j, parentOp) && Origin(s, applied, mint, k, ms[j], parentOp);
  }

  /** A candidate that meets every check gets an identity no member has. */
  lemma RecoveredIsNew(s: State, applied: map<Uuid, Uuid>, op: Uuid, root: Uuid, recoveredRoot: Uuid, newRoot: Uuid,
                       mint: nat -> Uuid, k: nat, n: nat, cs: seq<Candidate>, ms: seq<TreeMember>, m: TreeMember,
                       parentOp: Uuid)
    requires MintNew(s, root, recoveredRoot, newRoot, cs, mint)
             && PlannedSoFar(s, applied, op, root, recoveredRoot, mint, k, cs, ms) && |ms| < |cs|
    requires FromCandidate(cs[|ms|], m) && Origin(s, applied, mint, n, m, parentOp)
             && (m.revision > 0 ==> m.recovered == mint(k))
    requires HasOrigin(s, applied, mint, cs[|ms|], parentOp, recoveredRoot) && !IsSource(ms, cs[|ms|].obj)
    ensures m.recovered != recoveredRoot && !IsRecovered(ms, m.recovered)
  {
    var c := cs[|ms|];
    RecoveredOfLocal(s, applied, mint, n, c, m, parentOp);
    DrawnNext(s, root, recoveredRoot, newRoot, cs, mint, k);
    var h, a :| FromCandidate(c, a) && a.recovered != recoveredRoot && Origin(s, applied, mint, h, a, parentOp);
    RecoveredOfLocal(s, applied, mint, h, c, a, parentOp);
    hide Origin, MintNew, PlannedSoFar, HasOrigin, DrawnBelow;
    forall j | 0 <= j < |ms|
      ensures ms[j].recovered != m.recovered
    {
      var q := PlannedOrigin(s, applied, op, root, recoveredRoot, mint, k, cs, ms, j);
      RecoveredOfLocal(s, applied, mint, k, cs[j], ms[j], q);
      if ms[j].revision > 0 {
        DrawnIsNew(s, root, recoveredRoot, newRoot, cs, mint, ms[j].recovered, k);
      }
      assert ms[j].source != c.obj;
    }
  }

  /** Plans put each member below the same operation. */
  lemma ParentSame(ms: seq<TreeMember>, ns: seq<TreeMember>, op: Uuid, root: Uuid, recoveredRoot: Uuid, j: nat,
                   p: Uuid, q: Uuid)
    requires Agrees(ms, ns) && j < |ms| && IdsApart(ns, root, recoveredRoot)
    requires PlacedUnder(ms, op, root, recoveredRoot, j, p) && PlacedUnder(ns, op, root, recoveredRoot, j, q)
    ensures p == q
  {
    forall x | 0 <= x < |ms|
      ensures ms[x].source == ns[x].source && ms[x].sourceParent == ns[x].sourceParent
              && ms[x].sourceOp == ns[x].sourceOp
    {
      assert SameMember(ms[x], ns[x]);
    }
    hide Agrees, SameMember;
  }

  lemma ChainSame(a: TreeMember, b: TreeMember)
    requires SameMember(a, b)
    ensures forall x :: Own(AsQueued(a), x) <==> Own(AsQueued(b), x)
    ensures forall k: nat :: k < |a.chain| ==> Previous(AsQueued(a), k) == Previous(AsQueued(b), k)
  {
  }

  /** The dependents are closed in one plan exactly if they are in another; here the direction the planner needs. */
  lemma ClosedSame(s: State, applied: map<Uuid, Uuid>, op: Uuid, root: Uuid, recoveredRoot: Uuid, newRoot: Uuid,
                   mint: nat -> Uuid, cs: seq<Candidate>, ms: seq<TreeMember>, n: nat, k: nat, man: TreeManifest)
    requires PlannedSoFar(s, applied, op, root, recoveredRoot, mint, n, cs, ms) && |ms| == |cs|
             && Agrees(ms, man.members)
    requires PlanFor(s, applied, op, root, recoveredRoot, mint, cs, k, man)
    ensures DependentsClosed(s, root, recoveredRoot, TreeManifest(op, newRoot, ms))
  {
    var ours := TreeManifest(op, newRoot, ms);
    PlanParts(s, applied, op, root, recoveredRoot, mint, cs, k, man);
    hide PlannedSoFar, PlanFor, Deps, Open;
    forall i, p | 0 <= i < |s.rows| && p in Deps(s.rows[i].m) && ManifestOp(ours, p) && Open(s.rows[i].status)
      ensures AllowedChild(ms, op, root, recoveredRoot, p, s.rows[i].m.op)
    {
      OpSame(ours, man, p);
      assert AllowedChild(man.members, op, root, recoveredRoot, p, s.rows[i].m.op);
      ChildSame(s, applied, op, root, recoveredRoot, mint, cs, ms, n, man.members, p, s.rows[i].m.op);
    }
  }

  lemma PlanParts(s: State, applied: map<Uuid, Uuid>, op: Uuid, root: Uuid, recoveredRoot: Uuid, mint: nat -> Uuid,
                  cs: seq<Candidate>, k: nat, man: TreeManifest)
    requires PlanFor(s, applied, op, root, recoveredRoot, mint, cs, k, man)
    ensures man.operation == op && |man.members| == |cs| && DependentsClosed(s, root, recoveredRoot, man)
            && IdsApart(man.members, root, recoveredRoot)
  {
    hide DependentsClosed, IdsApart, MemberPlanned;
  }

  lemma OpSame(ours: TreeManifest, man: TreeManifest, p: Uuid)
    requires ours.operation == man.operation && Agrees(ours.members, man.members) && ManifestOp(ours, p)
    ensures ManifestOp(man, p)
  {
    hide Own, SameMember;
    if p != ours.operation {
      var i :| 0 <= i < |ours.members| && Own(AsQueued(ours.members[i]), p);
      assert SameMember(ours.members[i], man.members[i]);
      ChainSame(ours.members[i], man.members[i]);
      assert Own(AsQueued(man.members[i]), p);
    }
  }

  lemma ChildSame(s: State, applied: map<Uuid, Uuid>, op: Uuid, root: Uuid, recoveredRoot: Uuid, mint: nat -> Uuid,
                  cs: seq<Candidate>, ms: seq<TreeMember>, n: nat, ns: seq<TreeMember>, p: Uuid, child: Uuid)
    requires PlannedSoFar(s, applied, op, root, recoveredRoot, mint, n, cs, ms) && Agrees(ms, ns) && |ms| == |ns|
    requires IdsApart(ns, root, recoveredRoot) && AllowedChild(ns, op, root, recoveredRoot, p, child)
    ensures AllowedChild(ms, op, root, recoveredRoot, p, child)
  {
    var j :| 0 <= j < |ns| && ns[j].revision == 0
      && ((child == ns[j].sourceOp && PlacedUnder(ns, op, root, recoveredRoot, j, p))
          || exists k :: 0 <= k < |ns[j].chain| && child == ns[j].chain[k].op && p == Previous(AsQueued(ns[j]), k));
    assert SameMember(ms[j], ns[j]);
    ChainSame(ms[j], ns[j]);
    hide PlannedSoFar, Agrees, IdsApart, AsQueued, Previous, PlacedUnder, Own;
    var q := PlannedOrigin(s, applied, op, root, recoveredRoot, mint, n, cs, ms, j);
    if child == ns[j].sourceOp && PlacedUnder(ns, op, root, recoveredRoot, j, p) {
      ParentSame(ms, ns, op, root, recoveredRoot, j, q, p);
    } else {
      var k :| 0 <= k < |ns[j].chain| && child == ns[j].chain[k].op && p == Previous(AsQueued(ns[j]), k);
      assert child == ms[j].chain[k].op && p == Previous(AsQueued(ms[j]), k);
    }
  }

  // ---------------------------------------------------------------- one candidate

  /** Some member of a plan may come of the candidate. */
  ghost predicate CanOriginate(s: State, applied: map<Uuid, Uuid>, mint: nat -> Uuid, c: Candidate, parentOp: Uuid) {
    exists k, m :: FromCandidate(c, m) && Origin(s, applied, mint, k, m, parentOp)
  }

  lemma OriginatesIf(s: State, applied: map<Uuid, Uuid>, mint: nat -> Uuid, c: Candidate, parentOp: Uuid,
                     recoveredRoot: Uuid)
    requires HasOrigin(s, applied, mint, c, parentOp, recoveredRoot)
    ensures CanOriginate(s, applied, mint, c, parentOp)
  {
    hide FromCandidate, Origin;
  }

  lemma KnownOrigin(s: State, applied: map<Uuid, Uuid>, mint: nat -> Uuid, c: Candidate, parentOp: Uuid)
    requires CanOriginate(s, applied, mint, c, parentOp) && c.obj in s.baselines
    ensures c.obj in applied && ValidOperationId(applied[c.obj]) && !OpenFor(s, c.obj)
  {
    hide LocalQueued, OpenFor, DrawnBelow, ValidOperationId;
  }

  lemma LocalOrigin(s: State, applied: map<Uuid, Uuid>, mint: nat -> Uuid, c: Candidate, parentOp: Uuid)
    requires CanOriginate(s, applied, mint, c, parentOp) && c.obj !in s.baselines
    ensures LocalPossible(s, c, parentOp)
  {
    var k, m :| FromCandidate(c, m) && Origin(s, applied, mint, k, m, parentOp);
    assert AsQueued(m) == QueuedAs(c, m.sourceOp, m.createBlob, m.chain);
    hide LocalQueued, OpenFor, DrawnBelow, ValidOperationId, QueuedAs, AsQueued;
  }

  /** What is checked before any candidate. */
  predicate Header(s: State, op: Uuid, root: Uuid, recoveredRoot: Uuid, newRoot: Uuid, cs: seq<Candidate>) {
    && ValidOperationId(op) && ValidObjectId(root) && ValidObjectId(recoveredRoot) && root != recoveredRoot
    && ValidOperationId(newRoot)
    && op != newRoot && 0 < |cs| <= MAX_MEMBERS && RootRefused(s, op, root)
  }

  /** The server knows a candidate. */
  predicate AnyKnown(s: State, cs: seq<Candidate>, n: nat) {
    exists i :: 0 <= i < n <= |cs| && cs[i].obj in s.baselines
  }
}
