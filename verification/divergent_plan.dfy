/** Planning the recovery of a diverged folder move: who keeps an identity, who gets a new one, and what is queued of
    each. */
module DivergentPlan {
  import opened Ids
  import opened Naming
  import opened Optional
  import opened Outbox
  import opened OutboxProgress
  import opened RecursiveRecovery

  const MAX_DEPTH: nat := 256

  const MAX_MEMBERS: nat := 10000

  /** A file or folder found below the moved folder; the empty hash stands for the all-zero one. */
  datatype Candidate = Candidate(
    obj: Uuid, parent: Uuid, otype: ObjectType, name: string, relative: Path, depth: nat, device: nat, inode: nat,
    blob: Hash)

  /** A revision of zero marks a member the server has never seen. */
  datatype TreeMember = TreeMember(
    source: Uuid, recovered: Uuid, sourceParent: Uuid, recoveredParent: Uuid, sourceOp: Uuid, newOp: Uuid,
    otype: ObjectType, name: string,
    relative: Path, depth: nat, revision: nat, device: nat, inode: nat, sourceBlob: Hash, recoveredBlob: Hash,
    createBlob: Hash,
    chain: seq<ChainOp>)

  datatype TreeManifest = TreeManifest(operation: Uuid, newRoot: Uuid, members: seq<TreeMember>)

  predicate CandidateOk(c: Candidate) {
    && ValidObjectId(c.obj) && ValidObjectId(c.parent) && c.obj != c.parent && 1 <= c.depth <= MAX_DEPTH
    && ValidComponent(c.name) && ValidRelative(c.relative) && c.relative[|c.relative| - 1] == c.name
    && (if c.otype == Folder then 0 < c.device <= MAX_INT64 && 0 < c.inode <= MAX_INT64 && c.blob == []
        else c.device == 0 && c.inode == 0 && |c.blob| == HASH_SIZE)
  }

  /** Still to be answered, or answered with a conflict. */
  predicate Open(status: Status) {
    status == Pending || status == Attempted || status == ReplayMismatch || status == Conflict
  }

  predicate OpenFor(s: State, obj: Uuid) {
    exists i :: 0 <= i < |s.rows| && s.rows[i].m.obj == obj && Open(s.rows[i].status)
  }

  /** The refused move of the folder. */
  predicate RootRefused(s: State, op: Uuid, root: Uuid) {
    exists i :: 0 <= i < |s.rows| && s.rows[i].m.op == op && s.rows[i].m.obj == root && s.rows[i].m.kind == Move
        && s.rows[i].m.otype == Folder
                && s.rows[i].status == Conflict
  }

  // ---------------------------------------------------------------- members only this device knows

  function History(s: State, obj: Uuid, n: nat): seq<nat>
    requires n <= |s.rows|
  {
    if n == 0 then []
    else if s.rows[n - 1].m.obj == obj then History(s, obj, n - 1) + [n - 1]
    else History(s, obj, n - 1)
  }

  lemma {:induction false} HistoryIs(s: State, obj: Uuid, n: nat, i: nat)
    requires n <= |s.rows|
    ensures i in History(s, obj, n) <==> i < n && s.rows[i].m.obj == obj
  {
    if n > 0 {
      HistoryIs(s, obj, n - 1, i);
    }
  }

  /** The member as its queued operations describe it. */
  function QueuedAs(c: Candidate, sourceOp: Uuid, createBlob: Hash, chain: seq<ChainOp>): Member {
    Member(c.obj, c.parent, sourceOp, NIL, c.otype, c.name, c.relative, c.depth, c.device, c.inode, createBlob, c.blob,
           chain)
  }

  predicate Own(m: Member, op: Uuid) {
    op == m.oldOp || exists k :: 0 <= k < |m.chain| && m.chain[k].op == op
  }

  /** All that is queued of the object: its create, waiting for the parent's operation alone, and a chain of updates
      ending in its bytes. */
  predicate LocalQueued(s: State, m: Member, parentOp: Uuid) {
    && CreateRow(s, IndexOf(s, m.oldOp, |s.rows|), m, parentOp) && ValidOperationId(m.oldOp)
    && (forall k :: 0 <= k < |m.chain| ==> UpdateRow(s, IndexOf(s, m.chain[k].op, |s.rows|), m, k))
    && FinalOf(m) == m.finalBlob && (m.otype == Folder ==> m.chain == [])
    && forall i :: 0 <= i < |s.rows| && s.rows[i].m.obj == m.obj ==> Own(m, s.rows[i].m.op)
  }

  /** The first n rows of the history are the create and the first updates. */
  ghost predicate Matched(s: State, m: Member, history: seq<nat>, n: nat, parentOp: Uuid)
    requires 1 <= n <= |history|
  {
    && |m.chain| == n - 1 && history[0] < |s.rows| && CreateRow(s, history[0], m, parentOp)
    && (forall k :: 0 <= k < n - 1 ==> RowMatches(s, m, history, k))
  }

  predicate RowMatches(s: State, m: Member, history: seq<nat>, k: nat) {
    k < |m.chain| && k + 1 < |history| && UpdateRow(s, history[k + 1], m, k)
  }

  predicate UpdateOk(s: State, i: nat, previous: Uuid) {
    && i < |s.rows| && s.rows[i].status == Pending && Deps(s.rows[i].m) == {previous}
    && var u := s.rows[i].m;
       u.kind == Update && u.otype == Note && |u.blob| == HASH_SIZE && ValidOperationId(u.op)
  }

  function Longer(m: Member, op: Uuid, hash: Hash): Member {
    m.(chain := m.chain + [ChainOp(op, Previous(m, |m.chain|), hash)])
  }

  lemma LongerRow(s: State, i: nat, m: Member, k: nat, op: Uuid, hash: Hash)
    requires k < |m.chain| && UpdateRow(s, i, m, k)
    ensures UpdateRow(s, i, Longer(m, op, hash), k)
  {
    assert Previous(Longer(m, op, hash), k) == Previous(m, k);
    hide Previous, Deps;
  }

  lemma MatchedNext(s: State, m: Member, history: seq<nat>, n: nat, parentOp: Uuid)
    requires 1 <= n < |history| && Matched(s, m, history, n, parentOp)
    requires UpdateOk(s, history[n], Previous(m, |m.chain|)) && s.rows[history[n]].m.obj == m.obj
    ensures var u := s.rows[history[n]].m; Matched(s, Longer(m, u.op, u.blob), history, n + 1, parentOp)
    ensures var u := s.rows[history[n]].m; FinalOf(Longer(m, u.op, u.blob)) == u.blob
    ensures var u := s.rows[history[n]].m; Previous(Longer(m, u.op, u.blob), |m.chain| + 1) == u.op
  {
    var u := s.rows[history[n]].m;
    var r := Longer(m, u.op, u.blob);
    assert Previous(r, |m.chain|) == Previous(m, |m.chain|);
    hide Previous, Deps, ValidOperationId;
    forall k | 0 <= k < n
      ensures RowMatches(s, r, history, k)
    {
      if k < n - 1 {
        assert RowMatches(s, m, history, k);
        LongerRow(s, history[k + 1], m, k, u.op, u.blob);
      }
    }
  }

  lemma RowAt(s: State, i: nat, op: Uuid)
    requires WellFormed(s) && i < |s.rows| && s.rows[i].m.op == op
    ensures IndexOf(s, op, |s.rows|) == i
  {
    IndexIs(s, i, |s.rows|);
  }

  /** With the whole history matched, the object is queued as the member says. */
  lemma MatchedAll(s: State, m: Member, history: seq<nat>, parentOp: Uuid)
    requires WellFormed(s) && history == History(s, m.obj, |s.rows|) && |history| >= 1
             && Matched(s, m, history, |history|, parentOp)
    requires ValidOperationId(m.oldOp) && FinalOf(m) == m.finalBlob && (m.otype == Folder ==> m.chain == [])
    ensures LocalQueued(s, m, parentOp)
  {
    hide *;
    MatchedCreate(s, m, history, |history|, parentOp);
    RowAt(s, history[0], m.oldOp);
    forall k | 0 <= k < |m.chain|
      ensures UpdateRow(s, IndexOf(s, m.chain[k].op, |s.rows|), m, k)
    {
      MatchedUpdate(s, m, history, |history|, parentOp, k);
      RowAt(s, history[k + 1], m.chain[k].op);
    }
    forall i | 0 <= i < |s.rows| && s.rows[i].m.obj == m.obj
      ensures Own(m, s.rows[i].m.op)
    {
      HistoryIs(s, m.obj, |s.rows|, i);
      var x :| 0 <= x < |history| && history[x] == i;
      if x > 0 {
        MatchedUpdate(s, m, history, |history|, parentOp, x - 1);
        OwnChain(m, x - 1);
      } else {
        OwnCreate(m);
      }
    }
    LocalIf(s, m, parentOp);
  }

  lemma MatchedCreate(s: State, m: Member, history: seq<nat>, n: nat, parentOp: Uuid)
    requires 1 <= n <= |history| && Matched(s, m, history, n, parentOp)
    ensures history[0] < |s.rows| && CreateRow(s, history[0], m, parentOp) && s.rows[history[0]].m.op == m.oldOp
            && |m.chain| == n - 1
  {
    hide Deps, RowMatches;
  }

  lemma MatchedUpdate(s: State, m: Member, history: seq<nat>, n: nat, parentOp: Uuid, k: nat)
    requires 1 <= n <= |history| && Matched(s, m, history, n, parentOp) && k < n - 1
    ensures k < |m.chain| && history[k + 1] < |s.rows| && UpdateRow(s, history[k + 1], m, k)
            && s.rows[history[k + 1]].m.op == m.chain[k].op
  {
    hide Deps, CreateRow, Previous;
    assert RowMatches(s, m, history, k);
  }

  lemma OwnChain(m: Member, k: nat)
    requires k < |m.chain|
    ensures Own(m, m.chain[k].op)
  {
  }

  lemma OwnCreate(m: Member)
    ensures Own(m, m.oldOp)
  {
  }

  lemma LocalIf(s: State, m: Member, parentOp: Uuid)
    requires CreateRow(s, IndexOf(s, m.oldOp, |s.rows|), m, parentOp) && ValidOperationId(m.oldOp)
    requires forall k :: 0 <= k < |m.chain| ==> UpdateRow(s, IndexOf(s, m.chain[k].op, |s.rows|), m, k)
    requires FinalOf(m) == m.finalBlob && (m.otype == Folder ==> m.chain == [])
    requires forall i :: 0 <= i < |s.rows| && s.rows[i].m.obj == m.obj ==> Own(m, s.rows[i].m.op)
    ensures LocalQueued(s, m, parentOp)
  {
    hide CreateRow, UpdateRow, IndexOf, FinalOf, Own, ValidOperationId;
  }

  lemma MatchedFirst(s: State, m: Member, history: seq<nat>, parentOp: Uuid)
    requires |history| >= 1 && history[0] < |s.rows| && m.chain == []
    requires s.rows[history[0]].status == Pending && Deps(s.rows[history[0]].m) == {parentOp}
    requires var r := s.rows[history[0]].m;
             r.op == m.oldOp && r.kind == Create && r.obj == m.obj && r.otype == m.otype && r.parent == Some(m.parent)
                 && r.name == m.name
             && r.blob == m.createBlob && (m.otype == Folder ==> r.blob == [])
    ensures Matched(s, m, history, 1, parentOp) && FinalOf(m) == m.createBlob && Previous(m, 0) == m.oldOp
  {
    hide Deps;
  }

  // ---------------------------------------------------------------- the plan

  predicate FromCandidate(c: Candidate, m: TreeMember) {
    && m.source == c.obj && m.sourceParent == c.parent && m.otype == c.otype && m.name == c.name
    && m.relative == c.relative
    && m.depth == c.depth && m.device == c.device && m.inode == c.inode && m.sourceBlob == c.blob
  }

  function AsQueued(m: TreeMember): Member {
    Member(m.source, m.sourceParent, m.sourceOp, NIL, m.otype, m.name, m.relative, m.depth, m.device, m.inode,
           m.createBlob, m.sourceBlob, m.chain)
  }

  /** The server knows the object at this revision, by this operation, and nothing about it is open; it gets a new
      identity. */
  ghost predicate KnownMember(s: State, applied: map<Uuid, Uuid>, m: TreeMember) {
    && m.revision > 0 && m.source in s.baselines && s.baselines[m.source] == m.revision
    && m.source in applied && applied[m.source] == m.sourceOp && ValidOperationId(m.sourceOp) && !OpenFor(s, m.source)
    && m.recoveredBlob == [] && m.createBlob == [] && m.chain == []
  }

  /** The server has never seen the object; it keeps its identity and its last bytes. */
  ghost predicate LocalMember(s: State, m: TreeMember, parentOp: Uuid) {
    && m.revision == 0 && m.source !in s.baselines && LocalQueued(s, AsQueued(m), parentOp)
    && m.recovered == m.source && m.recoveredBlob == m.sourceBlob
  }

  predicate Below(p: TreeMember, m: TreeMember) {
    m.sourceParent == p.source && m.recoveredParent == p.recovered && m.relative == p.relative + [m.name]
  }

  /** Member i hangs below the moved folder or below a member before it, on both sides; parentOp is what made its old
      parent. */
  predicate PlacedUnder(ms: seq<TreeMember>, op: Uuid, root: Uuid, recoveredRoot: Uuid, i: nat, parentOp: Uuid)
    requires i < |ms|
  {
    || (ms[i].sourceParent == root && ms[i].recoveredParent == recoveredRoot && ms[i].relative == [ms[i].name]
        && parentOp == op)
    || exists j :: 0 <= j < i && Below(ms[j], ms[i]) && parentOp == ms[j].sourceOp
  }

  ghost predicate Origin(s: State, applied: map<Uuid, Uuid>, mint: nat -> Uuid, k: nat, m: TreeMember, parentOp: Uuid) {
    && DrawnBelow(mint, m.newOp, k)
    && (if m.revision > 0 then KnownMember(s, applied, m) && DrawnBelow(mint, m.recovered, k)
        else LocalMember(s, m, parentOp))
  }

  ghost predicate MemberPlanned(s: State, applied: map<Uuid, Uuid>, op: Uuid, root: Uuid, recoveredRoot: Uuid,
                                mint: nat -> Uuid, k: nat, c: Candidate, ms: seq<TreeMember>, i: nat)
    requires i < |ms|
  {
    && CandidateOk(c) && FromCandidate(c, ms[i]) && ms[i].depth == |ms[i].relative|
    && exists parentOp :: PlacedUnder(ms, op, root, recoveredRoot, i, parentOp)
        && Origin(s, applied, mint, k, ms[i], parentOp)
  }

  ghost predicate IdsApart(ms: seq<TreeMember>, root: Uuid, recoveredRoot: Uuid) {
    && (forall i, j :: 0 <= i < j < |ms| ==>
          ms[i].source != ms[j].source && ms[i].recovered != ms[j].recovered && ms[i].newOp != ms[j].newOp)
    && forall i :: 0 <= i < |ms| ==> ms[i].source != root && ms[i].recovered != recoveredRoot
  }

  ghost predicate PlannedSoFar(s: State, applied: map<Uuid, Uuid>, op: Uuid, root: Uuid, recoveredRoot: Uuid,
                               mint: nat -> Uuid, k: nat, cs: seq<Candidate>, ms: seq<TreeMember>) {
    && |ms| <= |cs| && IdsApart(ms, root, recoveredRoot)
    && forall i :: 0 <= i < |ms| ==> MemberPlanned(s, applied, op, root, recoveredRoot, mint, k, cs[i], ms, i)
  }

  /** Operations that may wait for operation p: the creates of local members below it and the updates behind it. */
  predicate AllowedChild(ms: seq<TreeMember>, op: Uuid, root: Uuid, recoveredRoot: Uuid, p: Uuid, child: Uuid) {
    exists i :: 0 <= i < |ms| && ms[i].revision == 0
      && ((child == ms[i].sourceOp && PlacedUnder(ms, op, root, recoveredRoot, i, p))
          || exists k :: 0 <= k < |ms[i].chain| && child == ms[i].chain[k].op && p == Previous(AsQueued(ms[i]), k))
  }

  predicate ManifestOp(man: TreeManifest, p: Uuid) {
    p == man.operation || exists i :: 0 <= i < |man.members| && Own(AsQueued(man.members[i]), p)
  }

  /** Whatever is open and waits for an operation of the manifest is in the manifest itself, where it belongs. */
  predicate DependentsClosed(s: State, root: Uuid, recoveredRoot: Uuid, man: TreeManifest) {
    forall i, p :: 0 <= i < |s.rows| && p in Deps(s.rows[i].m) && ManifestOp(man, p) && Open(s.rows[i].status) ==>
      AllowedChild(man.members, man.operation, root, recoveredRoot, p, s.rows[i].m.op)
  }

  ghost predicate Planned(s: State, applied: map<Uuid, Uuid>, root: Uuid, recoveredRoot: Uuid, mint: nat -> Uuid,
                          k: nat, cs: seq<Candidate>, man: TreeManifest) {
    && |man.members| == |cs| && PlannedSoFar(s, applied, man.operation, root, recoveredRoot, mint, k, cs, man.members)
    && DependentsClosed(s, root, recoveredRoot, man)
  }

  /** The identities drawn are new: to the outbox, to the tree, and among themselves. */
  ghost predicate MintNew(s: State, root: Uuid, recoveredRoot: Uuid, newRoot: Uuid, cs: seq<Candidate>,
                          mint: nat -> Uuid) {
    && FreshIds(s, mint)
    && (forall k :: mint(k) != root && mint(k) != recoveredRoot && mint(k) != newRoot && mint(k) !in s.baselines)
    && (forall k, i :: 0 <= i < |cs| ==> mint(k) != cs[i].obj)
    && (forall k, i :: 0 <= i < |s.rows| ==> mint(k) != s.rows[i].m.obj)
  }

  datatype PlanResult = Ineligible | NothingKnown | TreePlan(man: TreeManifest)

  // ---------------------------------------------------------------- planning one member

  lemma DrawnNow(mint: nat -> Uuid, k: nat, n: nat, x: Uuid)
    requires k < n && x == mint(k)
    ensures DrawnBelow(mint, x, n)
  {
  }

  /** Everything queued of a local member is pending. */
  lemma OwnPending(s: State, m: Member, parentOp: Uuid, i: nat)
    requires WellFormed(s) && LocalQueued(s, m, parentOp) && i < |s.rows| && Own(m, s.rows[i].m.op)
    ensures s.rows[i].status == Pending && s.rows[i].m.obj == m.obj
            && (s.rows[i].m.kind == Create || s.rows[i].m.kind == Update)
  {
    var op := s.rows[i].m.op;
    RowAt(s, i, op);
    hide WellFormed, IndexOf, ValidOperationId, FinalOf, Deps, Previous;
    if op == m.oldOp {
      assert CreateRow(s, i, m, parentOp);
    } else {
      var k :| 0 <= k < |m.chain| && m.chain[k].op == op;
      assert UpdateRow(s, i, m, k);
    }
  }

  lemma OwnRow(s: State, m: Member, parentOp: Uuid, i: nat)
    requires LocalQueued(s, m, parentOp) && i < |s.rows|
    ensures s.rows[i].m.obj == m.obj ==> Own(m, s.rows[i].m.op)
  {
    hide CreateRow, UpdateRow, IndexOf, FinalOf, Own, ValidOperationId;
  }

  lemma NoRootHistory(s: State, op: Uuid, root: Uuid, m: Member, parentOp: Uuid)
    requires WellFormed(s) && RootRefused(s, op, root) && LocalQueued(s, m, parentOp)
    ensures m.obj != root
  {
    var i :| 0 <= i < |s.rows| && s.rows[i].m.op == op && s.rows[i].m.obj == root && s.rows[i].m.kind == Move
        && s.rows[i].m.otype == Folder
             && s.rows[i].status == Conflict;
    hide *;
    OwnRow(s, m, parentOp, i);
    if Own(m, s.rows[i].m.op) {
      OwnPending(s, m, parentOp, i);
    }
  }

  lemma NoRootKnown(s: State, op: Uuid, root: Uuid, obj: Uuid)
    requires RootRefused(s, op, root) && !OpenFor(s, obj)
    ensures obj != root
  {
  }

  // ---------------------------------------------------------------- one more member

  lemma DrawnLater(mint: nat -> Uuid, x: Uuid, k: nat, n: nat)
    requires DrawnBelow(mint, x, k) && k <= n
    ensures DrawnBelow(mint, x, n)
  {
  }

  lemma DrawnDiffers(s: State, mint: nat -> Uuid, x: Uuid, k: nat, n: nat)
    requires FreshIds(s, mint) && DrawnBelow(mint, x, k) && k <= n
    ensures x != mint(n)
  {
    hide ValidOperationId, HasOp;
  }

  lemma OriginLater(s: State, applied: map<Uuid, Uuid>, mint: nat -> Uuid, k: nat, n: nat, m: TreeMember,
                    parentOp: Uuid)
    requires Origin(s, applied, mint, k, m, parentOp) && k <= n
    ensures Origin(s, applied, mint, n, m, parentOp) && DrawnBelow(mint, m.newOp, k)
  {
    hide KnownMember, LocalMember;
    DrawnLater(mint, m.newOp, k, n);
    if m.revision > 0 {
      DrawnLater(mint, m.recovered, k, n);
    }
  }

  lemma PlacedLater(ms: seq<TreeMember>, more: seq<TreeMember>, op: Uuid, root: Uuid, recoveredRoot: Uuid, i: nat,
                    parentOp: Uuid)
    requires i < |ms|
    ensures PlacedUnder(ms + more, op, root, recoveredRoot, i, parentOp)
            <==> PlacedUnder(ms, op, root, recoveredRoot, i, parentOp)
  {
    hide Below;
    var all := ms + more;
    if PlacedUnder(ms, op, root, recoveredRoot, i, parentOp) {
      if j :| 0 <= j < i && Below(ms[j], ms[i]) && parentOp == ms[j].sourceOp {
        assert Below(all[j], all[i]);
      }
    }
  }

  lemma MemberLater(s: State, applied: map<Uuid, Uuid>, op: Uuid, root: Uuid, recoveredRoot: Uuid, mint: nat -> Uuid,
                    k: nat, n: nat, c: Candidate, ms: seq<TreeMember>, m: TreeMember, i: nat)
    requires i < |ms| && MemberPlanned(s, applied, op, root, recoveredRoot, mint, k, c, ms, i) && k <= n
    ensures MemberPlanned(s, applied, op, root, recoveredRoot, mint, n, c, ms + [m], i)
            && DrawnBelow(mint, ms[i].newOp, k)
  {
    hide PlacedUnder, Origin, CandidateOk, FromCandidate;
    var parentOp :| PlacedUnder(ms, op, root, recoveredRoot, i, parentOp)
        && Origin(s, applied, mint, k, ms[i], parentOp);
    PlacedLater(ms, [m], op, root, recoveredRoot, i, parentOp);
    OriginLater(s, applied, mint, k, n, ms[i], parentOp);
  }

  lemma ApartNext(ms: seq<TreeMember>, root: Uuid, recoveredRoot: Uuid, m: TreeMember)
    requires IdsApart(ms, root, recoveredRoot) && m.source != root && m.recovered != recoveredRoot
    requires forall i :: 0 <= i < |ms| ==>
               ms[i].source != m.source && ms[i].recovered != m.recovered && ms[i].newOp != m.newOp
    ensures IdsApart(ms + [m], root, recoveredRoot)
  {
  }

  lemma PlannedParts(s: State, applied: map<Uuid, Uuid>, op: Uuid, root: Uuid, recoveredRoot: Uuid, mint: nat -> Uuid,
                     k: nat, cs: seq<Candidate>, ms: seq<TreeMember>)
    requires PlannedSoFar(s, applied, op, root, recoveredRoot, mint, k, cs, ms)
    ensures |ms| <= |cs| && IdsApart(ms, root, recoveredRoot)
    ensures forall i :: 0 <= i < |ms| ==> MemberPlanned(s, applied, op, root, recoveredRoot, mint, k, cs[i], ms, i)
  {
    hide IdsApart, MemberPlanned;
  }

  lemma PlannedIf(s: State, applied: map<Uuid, Uuid>, op: Uuid, root: Uuid, recoveredRoot: Uuid, mint: nat -> Uuid,
                  k: nat, cs: seq<Candidate>, ms: seq<TreeMember>)
    requires |ms| <= |cs| && IdsApart(ms, root, recoveredRoot)
    requires forall i :: 0 <= i < |ms| ==> MemberPlanned(s, applied, op, root, recoveredRoot, mint, k, cs[i], ms, i)
    ensures PlannedSoFar(s, applied, op, root, recoveredRoot, mint, k, cs, ms)
  {
    hide IdsApart, MemberPlanned;
  }

  lemma MemberPlannedIf(s: State, applied: map<Uuid, Uuid>, op: Uuid, root: Uuid, recoveredRoot: Uuid,
                        mint: nat -> Uuid, k: nat, c: Candidate, ms: seq<TreeMember>, i: nat, parentOp: Uuid)
    requires i < |ms| && CandidateOk(c) && FromCandidate(c, ms[i]) && ms[i].depth == |ms[i].relative|
    requires PlacedUnder(ms, op, root, recoveredRoot, i, parentOp) && Origin(s, applied, mint, k, ms[i], parentOp)
    ensures MemberPlanned(s, applied, op, root, recoveredRoot, mint, k, c, ms, i)
  {
    hide CandidateOk, FromCandidate, PlacedUnder, Origin;
  }

  /** A member whose place and origin were checked, and whose identities are new, joins the plan. */
  lemma JoinsPlan(s: State, applied: map<Uuid, Uuid>, op: Uuid, root: Uuid, recoveredRoot: Uuid, mint: nat -> Uuid,
                  k: nat, n: nat, cs: seq<Candidate>, ms: seq<TreeMember>, m: TreeMember, parentOp: Uuid)
    requires FreshIds(s, mint) && PlannedSoFar(s, applied, op, root, recoveredRoot, mint, k, cs, ms) && |ms| < |cs|
             && k < n
    requires CandidateOk(cs[|ms|]) && FromCandidate(cs[|ms|], m) && m.depth == |m.relative|
    requires PlacedUnder(ms + [m], op, root, recoveredRoot, |ms|, parentOp) && Origin(s, applied, mint, n, m, parentOp)
             && m.newOp == mint(n - 1)
    requires m.source != root && m.recovered != recoveredRoot
    requires forall i :: 0 <= i < |ms| ==> ms[i].source != m.source && ms[i].recovered != m.recovered
    ensures PlannedSoFar(s, applied, op, root, recoveredRoot, mint, n, cs, ms + [m])
  {
    hide *;
    PlannedParts(s, applied, op, root, recoveredRoot, mint, k, cs, ms);
    forall i | 0 <= i < |ms|
      ensures MemberPlanned(s, applied, op, root, recoveredRoot, mint, n, cs[i], ms + [m], i) && ms[i].newOp != m.newOp
    {
      MemberLater(s, applied, op, root, recoveredRoot, mint, k, n, cs[i], ms, m, i);
      DrawnDiffers(s, mint, ms[i].newOp, k, n - 1);
    }
    ApartNext(ms, root, recoveredRoot, m);
    MemberPlannedIf(s, applied, op, root, recoveredRoot, mint, n, cs[|ms|], ms + [m], |ms|, parentOp);
    PlannedIf(s, applied, op, root, recoveredRoot, mint, n, cs, ms + [m]);
  }

  // ---------------------------------------------------------------- the maps of the planning loop

  ghost predicate IsSource(ms: seq<TreeMember>, p: Uuid) {
    exists j :: 0 <= j < |ms| && ms[j].source == p
  }

  ghost predicate IsRecovered(ms: seq<TreeMember>, x: Uuid) {
    exists j :: 0 <= j < |ms| && ms[j].recovered == x
  }

  function RelativeOf(m: TreeMember): Path {
    m.relative
  }

  function RecoveredOf(m: TreeMember): Uuid {
    m.recovered
  }

  function SourceOpOf(m: TreeMember): Uuid {
    m.sourceOp
  }

  /** One entry for the root and one for each member so far. */
  ghost predicate Holds<T>(entries: map<Uuid, T>, ms: seq<TreeMember>, root: Uuid, atRoot: T, of: TreeMember -> T) {
    && (forall p :: p in entries <==> p == root || IsSource(ms, p))
    && root in entries && entries[root] == atRoot
    && forall j :: 0 <= j < |ms| ==> ms[j].source in entries && entries[ms[j].source] == of(ms[j])
  }

  lemma HoldsNext<T>(entries: map<Uuid, T>, ms: seq<TreeMember>, root: Uuid, atRoot: T, of: TreeMember -> T,
                     m: TreeMember)
    requires Holds(entries, ms, root, atRoot, of) && m.source != root && !IsSource(ms, m.source)
    ensures Holds(entries[m.source := of(m)], ms + [m], root, atRoot, of)
  {
    var next, all := entries[m.source := of(m)], ms + [m];
    SourceNext(ms, m);
    forall j | 0 <= j < |all|
      ensures all[j].source in next && next[all[j].source] == of(all[j])
    {
      if j < |ms| {
        assert all[j] == ms[j] && IsSource(ms, ms[j].source);
      }
    }
    hide IsSource;
  }

  lemma SourceNext(ms: seq<TreeMember>, m: TreeMember)
    ensures forall p :: IsSource(ms + [m], p) <==> IsSource(ms, p) || p == m.source
    ensures forall x :: IsRecovered(ms + [m], x) <==> IsRecovered(ms, x) || x == m.recovered
  {
    var all := ms + [m];
    forall p
      ensures IsSource(all, p) <==> IsSource(ms, p) || p == m.source
    {
      if IsSource(ms, p) {
        var j :| 0 <= j < |ms| && ms[j].source == p;
        assert all[j].source == p;
      }
      if p == m.source {
        assert all[|ms|].source == p;
      }
    }
    forall x
      ensures IsRecovered(all, x) <==> IsRecovered(ms, x) || x == m.recovered
    {
      if IsRecovered(ms, x) {
        var j :| 0 <= j < |ms| && ms[j].recovered == x;
        assert all[j].recovered == x;
      }
      if x == m.recovered {
        assert all[|ms|].recovered == x;
      }
    }
  }

  /** The looked-up entries of a checked parent put the member where it belongs. */
  lemma PlacedByMaps(ms: seq<TreeMember>, op: Uuid, root: Uuid, recoveredRoot: Uuid, relatives: map<Uuid, Path>,
                     recoveredIds: map<Uuid, Uuid>, sourceOps: map<Uuid, Uuid>, m: TreeMember)
    requires Holds(relatives, ms, root, [], RelativeOf) && Holds(recoveredIds, ms, root, recoveredRoot, RecoveredOf)
    requires Holds(sourceOps, ms, root, op, SourceOpOf)
    requires m.sourceParent == root || IsSource(ms, m.sourceParent)
    ensures m.sourceParent in relatives && m.sourceParent in recoveredIds && m.sourceParent in sourceOps
    ensures m.recoveredParent == recoveredIds[m.sourceParent] && m.relative == relatives[m.sourceParent] + [m.name]
            ==> PlacedUnder(ms + [m], op, root, recoveredRoot, |ms|, sourceOps[m.sourceParent])
  {
    var all := ms + [m];
    if m.sourceParent != root && m.recoveredParent == recoveredIds[m.sourceParent]
        && m.relative == relatives[m.sourceParent] + [m.name] {
      var j :| 0 <= j < |ms| && ms[j].source == m.sourceParent;
      assert all[j] == ms[j] && Below(all[j], all[|ms|]);
    }
  }

  // ---------------------------------------------------------------- the whole plan

  lemma NothingPlanned(s: State, applied: map<Uuid, Uuid>, op: Uuid, root: Uuid, recoveredRoot: Uuid,
                       mint: nat -> Uuid, cs: seq<Candidate>)
    ensures PlannedSoFar(s, applied, op, root, recoveredRoot, mint, 0, cs, [])
    ensures forall p :: !IsSource([], p) && !IsRecovered([], p)
  {
  }

  lemma FieldsAre(m: TreeMember)
    ensures RelativeOf(m) == m.relative && RecoveredOf(m) == m.recovered && SourceOpOf(m) == m.sourceOp
  {
  }

  lemma NotSource(ms: seq<TreeMember>, p: Uuid)
    requires !IsSource(ms, p)
    ensures forall i :: 0 <= i < |ms| ==> ms[i].source != p
  {
  }

  lemma NotRecovered(ms: seq<TreeMember>, x: Uuid)
    requires !IsRecovered(ms, x)
    ensures forall i :: 0 <= i < |ms| ==> ms[i].recovered != x
  {
  }

  lemma MintFresh(s: State, root: Uuid, recoveredRoot: Uuid, newRoot: Uuid, cs: seq<Candidate>, mint: nat -> Uuid)
    requires MintNew(s, root, recoveredRoot, newRoot, cs, mint)
    ensures FreshIds(s, mint)
  {
    hide FreshIds;
  }

  lemma HoldsStart<T>(entries: map<Uuid, T>, root: Uuid, atRoot: T, of: TreeMember -> T)
    requires entries == map[root := atRoot]
    ensures Holds(entries, [], root, atRoot, of)
  {
  }

  lemma ParentMapped(ms: seq<TreeMember>, root: Uuid, p: Uuid, relatives: map<Uuid, Path>, recoveredIds: map<Uuid,
                     Uuid>, sourceOps: map<Uuid, Uuid>, recoveredRoot: Uuid, op: Uuid)
    requires Holds(relatives, ms, root, [], RelativeOf) && Holds(recoveredIds, ms, root, recoveredRoot, RecoveredOf)
    requires Holds(sourceOps, ms, root, op, SourceOpOf) && (p == root || IsSource(ms, p))
    ensures p in relatives && p in recoveredIds && p in sourceOps
  {
    hide IsSource;
  }

  lemma FromIs(c: Candidate, m: TreeMember)
    requires FromCandidate(c, m)
    ensures m.source == c.obj && m.sourceParent == c.parent && m.name == c.name && m.relative == c.relative
            && m.depth == c.depth
  {
  }

  lemma KnownStays(ms: seq<TreeMember>, m: TreeMember)
    requires exists j :: 0 <= j < |ms| && ms[j].revision > 0
    ensures exists j :: 0 <= j < |ms + [m]| && (ms + [m])[j].revision > 0
  {
    var j :| 0 <= j < |ms| && ms[j].revision > 0;
    assert (ms + [m])[j].revision > 0;
  }

  lemma PlannedWhole(s: State, applied: map<Uuid, Uuid>, root: Uuid, recoveredRoot: Uuid, mint: nat -> Uuid, k: nat,
                     cs: seq<Candidate>, man: TreeManifest)
    requires |man.members| == |cs|
             && PlannedSoFar(s, applied, man.operation, root, recoveredRoot, mint, k, cs, man.members)
    requires DependentsClosed(s, root, recoveredRoot, man)
    ensures Planned(s, applied, root, recoveredRoot, mint, k, cs, man)
  {
    hide PlannedSoFar, DependentsClosed;
  }
}
