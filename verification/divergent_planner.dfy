/** Planning the recovery of a diverged folder move: a plan is made whenever there is one. */
module DivergentPlanner {
  import opened Ids
  import opened Naming
  import opened Optional
  import opened Outbox
  import opened RecursiveRecovery
  import opened DivergentPlan
  import opened DivergentExact

  lemma QueuedPossible(s: State, c: Candidate, m: Member, parentOp: Uuid)
    requires m == QueuedAs(c, m.oldOp, m.createBlob, m.chain) && LocalQueued(s, m, parentOp)
    ensures LocalPossible(s, c, parentOp)
  {
    hide LocalQueued, QueuedAs;
  }

  /** Reads the queued history of an object the server has never seen; succeeds exactly if it is one pending create and
      its updates, ending in the bytes on disk. */
  method PlanLocal(s: State, c: Candidate, parentOp: Uuid) returns (ok: bool, m: Member)
    requires WellFormed(s)
    ensures ok ==> m == QueuedAs(c, m.oldOp, m.createBlob, m.chain) && LocalQueued(s, m, parentOp)
    ensures RowsValid(s) && (c.otype == Folder ==> c.blob == []) ==> (ok <==> LocalPossible(s, c, parentOp))
  {
    if RowsValid(s) && (c.otype == Folder ==> c.blob == []) && LocalPossible(s, c, parentOp) {
      LocalFits(s, c, parentOp);
    }
    hide WellFormed, RowsValid, History, Deps, ValidOperationId, IndexOf, LocalQueued, Matched, FinalOf, Previous,
         LocalPossible, UpdateOk;
    m := QueuedAs(c, NIL, [], []);
    var history := History(s, c.obj, |s.rows|);
    if |history| == 0 {
      return false, m;
    }
    HistoryIs(s, c.obj, |s.rows|, history[0]);
    assert history[0] in history;
    var create := s.rows[history[0]].m;
    if !ValidOperationId(create.op) || create.otype != c.otype || create.parent != Some(c.parent)
        || create.name != c.name {
      return false, m;
    }
    if create.kind != Create || s.rows[history[0]].status != Pending || Deps(create) != {parentOp} {
      return false, m;
    }
    if c.otype == Folder && (create.blob != [] || |history| != 1) {
      return false, m;
    }
    if c.otype == Note && |create.blob| != HASH_SIZE {
      return false, m;
    }
    m := QueuedAs(c, create.op, create.blob, []);
    var previous, final := create.op, create.blob;
    MatchedFirst(s, m, history, parentOp);
    for n := 1 to |history|
      invariant m == QueuedAs(c, create.op, create.blob, m.chain)
      invariant Matched(s, m, history, n, parentOp) && FinalOf(m) == final && previous == Previous(m, |m.chain|)
      invariant c.otype == Folder ==> m.chain == []
      invariant history[n - 1] < |s.rows| && previous == s.rows[history[n - 1]].m.op
                && final == s.rows[history[n - 1]].m.blob
    {
      HistoryIs(s, c.obj, |s.rows|, history[n]);
      assert history[n] in history;
      GoesOnIs(s, history, n);
      if !UpdateOk(s, history[n], previous) {
        return false, m;
      }
      MatchedNext(s, m, history, n, parentOp);
      var u := s.rows[history[n]].m;
      m := Longer(m, u.op, u.blob);
      previous, final := u.op, u.blob;
    }
    if final != c.blob {
      return false, m;
    }
    MatchedAll(s, m, history, parentOp);
    QueuedPossible(s, c, m, parentOp);
    ok := true;
  }

  /** Decides what becomes of one candidate whose place was checked. */
  method PlanOne(s: State, applied: map<Uuid, Uuid>, op: Uuid, root: Uuid, c: Candidate, parentOp: Uuid,
                 recoveredParent: Uuid, mint: nat -> Uuid, k: nat)
    returns (ok: bool, m: TreeMember, n: nat)
    requires WellFormed(s) && BaselinesStorable(s) && RootRefused(s, op, root)
    ensures ok ==> k < n && FromCandidate(c, m) && m.recoveredParent == recoveredParent && m.source != root
    ensures ok ==> (m.revision > 0 <==> c.obj in s.baselines)
    ensures RowsValid(s) && (c.otype == Folder ==> c.blob == []) && CanOriginate(s, applied, mint, c, parentOp) ==> ok
    ensures ok ==> Origin(s, applied, mint, n, m, parentOp) && m.newOp == mint(n - 1)
                   && (m.revision > 0 ==> m.recovered == mint(k) && n == k + 2)
  {
    if CanOriginate(s, applied, mint, c, parentOp) {
      if c.obj in s.baselines {
        KnownOrigin(s, applied, mint, c, parentOp);
      } else {
        LocalOrigin(s, applied, mint, c, parentOp);
      }
    }
    hide WellFormed, RowsValid, LocalQueued, OpenFor, ValidOperationId, RootRefused, CanOriginate, LocalPossible;
    n := k;
    m := TreeMember(c.obj, NIL, c.parent, recoveredParent, NIL, NIL, c.otype, c.name, c.relative, c.depth, 0, c.device,
                    c.inode, c.blob, [], [], []);
    if c.obj in s.baselines {
      if c.obj !in applied {
        return false, m, n;
      }
      if !ValidOperationId(applied[c.obj]) || OpenFor(s, c.obj) {
        return false, m, n;
      }
      NoRootKnown(s, op, root, c.obj);
      m := m.(revision := s.baselines[c.obj], sourceOp := applied[c.obj], recovered := mint(n));
      n := n + 1;
      m := m.(newOp := mint(n));
      n := n + 1;
      DrawnNow(mint, k, n, m.recovered);
      DrawnNow(mint, k + 1, n, m.newOp);
    } else {
      var planned, q := PlanLocal(s, c, parentOp);
      if !planned {
        return false, m, n;
      }
      NoRootHistory(s, op, root, q, parentOp);
      m := m.(sourceOp := q.oldOp, createBlob := q.createBlob, chain := q.chain, recovered := c.obj,
              recoveredBlob := c.blob, newOp := mint(n));
      n := n + 1;
      assert AsQueued(m) == q;
      DrawnNow(mint, k, n, m.newOp);
    }
    ok := true;
  }

  // ---------------------------------------------------------------- the whole plan

  lemma HeaderIs(s: State, op: Uuid, root: Uuid, recoveredRoot: Uuid, newRoot: Uuid, cs: seq<Candidate>)
    requires Header(s, op, root, recoveredRoot, newRoot, cs)
    ensures ValidOperationId(op) && ValidObjectId(root) && ValidObjectId(recoveredRoot) && root != recoveredRoot
            && ValidOperationId(newRoot)
    ensures op != newRoot && 0 < |cs| <= MAX_MEMBERS && RootRefused(s, op, root)
  {
    hide ValidOperationId, ValidObjectId, RootRefused;
  }

  lemma NoneKnown(s: State, cs: seq<Candidate>)
    ensures !AnyKnown(s, cs, 0)
  {
  }

  lemma KnownNext(s: State, cs: seq<Candidate>, n: nat)
    requires n < |cs|
    ensures AnyKnown(s, cs, n + 1) <==> AnyKnown(s, cs, n) || cs[n].obj in s.baselines
  {
  }

  lemma FolderBlob(c: Candidate)
    requires CandidateOk(c)
    ensures c.otype == Folder ==> c.blob == []
  {
    hide ValidObjectId, ValidComponent, ValidRelative;
  }

  lemma StepOkIs(s: State, applied: map<Uuid, Uuid>, root: Uuid, recoveredRoot: Uuid, mint: nat -> Uuid,
                 ms: seq<TreeMember>, c: Candidate, relatives: map<Uuid, Path>, sourceOps: map<Uuid, Uuid>)
    ensures StepOk(s, applied, root, recoveredRoot, mint, ms, c, relatives, sourceOps) ==>
              && CandidateOk(c) && !IsSource(ms, c.obj) && (c.parent == root || IsSource(ms, c.parent))
              && c.parent in relatives && c.parent in sourceOps
              && c.relative == relatives[c.parent] + [c.name] && c.depth == 1 + |relatives[c.parent]|
              && HasOrigin(s, applied, mint, c, sourceOps[c.parent], recoveredRoot)
              && CanOriginate(s, applied, mint, c, sourceOps[c.parent])
  {
    hide CandidateOk, IsSource, HasOrigin, CanOriginate;
    if StepOk(s, applied, root, recoveredRoot, mint, ms, c, relatives, sourceOps) {
      OriginatesIf(s, applied, mint, c, sourceOps[c.parent], recoveredRoot);
    }
  }

  lemma AgreedClosed(s: State, applied: map<Uuid, Uuid>, op: Uuid, root: Uuid, recoveredRoot: Uuid, newRoot: Uuid,
                     mint: nat -> Uuid, cs: seq<Candidate>, ms: seq<TreeMember>, n: nat)
    requires PlannedSoFar(s, applied, op, root, recoveredRoot, mint, n, cs, ms) && |ms| == |cs|
    requires AllAgree(s, applied, op, root, recoveredRoot, mint, cs, ms)
    ensures NoPlan(s, applied, op, root, recoveredRoot, mint, cs)
            || DependentsClosed(s, root, recoveredRoot, TreeManifest(op, newRoot, ms))
  {
    hide PlannedSoFar, PlanFor, Agrees, DependentsClosed;
    if !NoPlan(s, applied, op, root, recoveredRoot, mint, cs) {
      var k, man :| PlanFor(s, applied, op, root, recoveredRoot, mint, cs, k, man);
      ClosedSame(s, applied, op, root, recoveredRoot, newRoot, mint, cs, ms, n, k, man);
    }
  }

  lemma SomePlan(s: State, applied: map<Uuid, Uuid>, op: Uuid, root: Uuid, recoveredRoot: Uuid, mint: nat -> Uuid,
                 cs: seq<Candidate>, k: nat, man: TreeManifest)
    requires man.operation == op && Planned(s, applied, root, recoveredRoot, mint, k, cs, man)
    ensures !NoPlan(s, applied, op, root, recoveredRoot, mint, cs)
  {
    assert PlanFor(s, applied, op, root, recoveredRoot, mint, cs, k, man);
    hide Planned;
  }

  /** Plans the next candidate, against what the loop noted of those before. */
  method PlanNext(s: State, applied: map<Uuid, Uuid>, op: Uuid, root: Uuid, recoveredRoot: Uuid, ghost newRoot: Uuid,
                  cs: seq<Candidate>, mint: nat -> Uuid, ghost ms: seq<TreeMember>, k: nat, seenSources: set<Uuid>,
                  seenRecovered: set<Uuid>, relatives: map<Uuid, Path>, recoveredIds: map<Uuid, Uuid>,
                  sourceOps: map<Uuid, Uuid>, i: nat)
    returns (ok: bool, m: TreeMember, n: nat)
    requires WellFormed(s) && BaselinesStorable(s) && MintNew(s, root, recoveredRoot, newRoot, cs, mint)
             && RootRefused(s, op, root)
    requires i == |ms| < |cs| && PlannedSoFar(s, applied, op, root, recoveredRoot, mint, k, cs, ms)
    requires (forall p :: p in seenSources <==> IsSource(ms, p))
             && forall x :: x in seenRecovered <==> x == recoveredRoot || IsRecovered(ms, x)
    requires Holds(relatives, ms, root, [], RelativeOf) && Holds(recoveredIds, ms, root, recoveredRoot, RecoveredOf)
    requires Holds(sourceOps, ms, root, op, SourceOpOf) && AllAgree(s, applied, op, root, recoveredRoot, mint, cs, ms)
    ensures ok ==> PlannedSoFar(s, applied, op, root, recoveredRoot, mint, n, cs, ms + [m]) && m.source != root
                   && !IsSource(ms, m.source)
    ensures ok ==> AllAgree(s, applied, op, root, recoveredRoot, mint, cs, ms + [m])
                   && (m.revision > 0 <==> cs[|ms|].obj in s.baselines)
    ensures RowsValid(s) && !ok ==> NoPlan(s, applied, op, root, recoveredRoot, mint, cs)
  {
    hide *;
    var c := cs[i];
    ok, m, n := false, NoMember(), k;
    StepRules(s, applied, op, root, recoveredRoot, mint, cs, ms, relatives, sourceOps);
    StepOkIs(s, applied, root, recoveredRoot, mint, ms, c, relatives, sourceOps);
    if !CandidateOk(c) || c.obj in seenSources || (c.parent !in seenSources && c.parent != root) {
      return;
    }
    FolderBlob(c);
    ParentMapped(ms, root, c.parent, relatives, recoveredIds, sourceOps, recoveredRoot, op);
    if c.relative != relatives[c.parent] + [c.name] || c.depth != 1 + |relatives[c.parent]| {
      return;
    }
    ok, m, n := PlanOne(s, applied, op, root, c, sourceOps[c.parent], recoveredIds[c.parent], mint, k);
    if !ok {
      return;
    }
    if HasOrigin(s, applied, mint, c, sourceOps[c.parent], recoveredRoot) {
      RecoveredIsNew(s, applied, op, root, recoveredRoot, newRoot, mint, k, n, cs, ms, m, sourceOps[c.parent]);
    }
    if m.recovered in seenRecovered {
      ok := false;
      return;
    }
    FromIs(c, m);
    MintFresh(s, root, recoveredRoot, newRoot, cs, mint);
    PlacedByMaps(ms, op, root, recoveredRoot, relatives, recoveredIds, sourceOps, m);
    NotSource(ms, m.source);
    NotRecovered(ms, m.recovered);
    JoinsPlan(s, applied, op, root, recoveredRoot, mint, k, n, cs, ms, m, sourceOps[c.parent]);
    AgreeNext(s, applied, op, root, recoveredRoot, mint, cs, ms, relatives, sourceOps, m, n, sourceOps[c.parent]);
  }

  function NoMember(): TreeMember {
    TreeMember(NIL, NIL, NIL, NIL, NIL, NIL, Folder, "", [], 0, 0, 0, 0, [], [], [], [])
  }

  /** Plans every candidate, parents first; nothing is planned if the server knows none of them. A plan is found exactly
      if there is one. */
  method PlanTree(s: State, applied: map<Uuid, Uuid>, op: Uuid, root: Uuid, recoveredRoot: Uuid, newRoot: Uuid,
                  cs: seq<Candidate>, mint: nat -> Uuid)
    returns (r: PlanResult, ghost drawn: nat)
    requires WellFormed(s) && BaselinesStorable(s) && MintNew(s, root, recoveredRoot, newRoot, cs, mint)
    ensures r.TreePlan? ==> r.man.operation == op && r.man.newRoot == newRoot && RootRefused(s, op, root)
                            && 0 < |r.man.members| <= MAX_MEMBERS
    ensures r.TreePlan? ==> ValidOperationId(op) && ValidOperationId(newRoot) && op != newRoot
                            && ValidObjectId(recoveredRoot) && root != recoveredRoot
    ensures r.TreePlan? ==> Planned(s, applied, root, recoveredRoot, mint, drawn, cs, r.man)
    ensures r.TreePlan? ==> exists i :: 0 <= i < |r.man.members| && r.man.members[i].revision > 0
    ensures RowsValid(s) ==>
              (r.TreePlan? <==>
                && Header(s, op, root, recoveredRoot, newRoot, cs) && AnyKnown(s, cs, |cs|)
                && !NoPlan(s, applied, op, root, recoveredRoot, mint, cs))
  {
    hide *;
    drawn := 0;
    if !Header(s, op, root, recoveredRoot, newRoot, cs) {
      return Ineligible, drawn;
    }
    HeaderIs(s, op, root, recoveredRoot, newRoot, cs);
    MintFresh(s, root, recoveredRoot, newRoot, cs, mint);
    var ms: seq<TreeMember>, k: nat, known: nat := [], 0, 0;
    var seenSources: set<Uuid>, seenRecovered := {}, {recoveredRoot};
    var sourceOps: map<Uuid, Uuid>, recoveredIds: map<Uuid, Uuid> := map[root := op], map[root := recoveredRoot];
    var relatives: map<Uuid, Path> := map[root := []];
    NothingPlanned(s, applied, op, root, recoveredRoot, mint, cs);
    NothingAgrees(s, applied, op, root, recoveredRoot, mint, cs);
    NoneKnown(s, cs);
    HoldsStart(relatives, root, [], RelativeOf);
    HoldsStart(recoveredIds, root, recoveredRoot, RecoveredOf);
    HoldsStart(sourceOps, root, op, SourceOpOf);
    for i := 0 to |cs|
      invariant |ms| == i && PlannedSoFar(s, applied, op, root, recoveredRoot, mint, k, cs, ms)
      invariant forall p :: p in seenSources <==> IsSource(ms, p)
      invariant forall x :: x in seenRecovered <==> x == recoveredRoot || IsRecovered(ms, x)
      invariant Holds(relatives, ms, root, [], RelativeOf)
      invariant Holds(recoveredIds, ms, root, recoveredRoot, RecoveredOf)
      invariant Holds(sourceOps, ms, root, op, SourceOpOf)
      invariant known > 0 ==> exists j :: 0 <= j < |ms| && ms[j].revision > 0
      invariant known > 0 <==> AnyKnown(s, cs, i)
      invariant AllAgree(s, applied, op, root, recoveredRoot, mint, cs, ms)
    {
      var ok, m, n := PlanNext(s, applied, op, root, recoveredRoot, newRoot, cs, mint, ms, k, seenSources,
                               seenRecovered, relatives, recoveredIds,
                               sourceOps, i);
      if !ok {
        return Ineligible, drawn;
      }
      KnownNext(s, cs, i);
      SourceNext(ms, m);
      FieldsAre(m);
      HoldsNext(relatives, ms, root, [], RelativeOf, m);
      HoldsNext(recoveredIds, ms, root, recoveredRoot, RecoveredOf, m);
      HoldsNext(sourceOps, ms, root, op, SourceOpOf, m);
      if m.revision > 0 {
        known := known + 1;
        assert (ms + [m])[|ms|].revision > 0;
      } else if known > 0 {
        KnownStays(ms, m);
      }
      seenSources, seenRecovered := seenSources + {m.source}, seenRecovered + {m.recovered};
      sourceOps, recoveredIds, relatives := sourceOps[m.source := m.sourceOp], recoveredIds[m.source := m.recovered],
        relatives[m.source := m.relative];
      ms, k := ms + [m], n;
    }
    if known == 0 {
      return NothingKnown, drawn;
    }
    var man := TreeManifest(op, newRoot, ms);
    AgreedClosed(s, applied, op, root, recoveredRoot, newRoot, mint, cs, ms, k);
    if !DependentsClosed(s, root, recoveredRoot, man) {
      return Ineligible, drawn;
    }
    PlannedWhole(s, applied, root, recoveredRoot, mint, k, cs, man);
    SomePlan(s, applied, op, root, recoveredRoot, mint, cs, k, man);
    r, drawn := TreePlan(man), k;
  }
}
