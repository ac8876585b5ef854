/** What capturing the queued graph below a refused folder finds, step by step. */
module RecursiveWalk {
  import opened Ids
  import opened Naming
  import opened Optional
  import opened Outbox
  import opened OutboxProgress
  import opened RecursiveRecovery
  import opened RecursiveReplacement
  import Sorting

  // ---------------------------------------------------------------- queries

  /** The rows among the first n that wait for op, in sequence order. */
  function Dependents(s: State, op: Uuid, n: nat): seq<nat>
    requires n <= |s.rows|
  {
    if n == 0 then []
    else if op in Deps(s.rows[n - 1].m) then Dependents(s, op, n - 1) + [n - 1]
    else Dependents(s, op, n - 1)
  }

  lemma {:induction false} DependentsAre(s: State, op: Uuid, n: nat)
    requires n <= |s.rows|
    ensures forall i :: i in Dependents(s, op, n) <==> 0 <= i < n && op in Deps(s.rows[i].m)
    ensures forall a, b :: 0 <= a < b < |Dependents(s, op, n)| ==> Dependents(s, op, n)[a] < Dependents(s, op, n)[b]
  {
    if n > 0 {
      DependentsAre(s, op, n - 1);
      hide Deps;
      var before := Dependents(s, op, n - 1);
      forall a | 0 <= a < |before|
        ensures before[a] < n - 1
      {
        assert before[a] in before;
      }
    }
  }

  function Position(s: State, op: Uuid): nat {
    IndexOf(s, op, |s.rows|)
  }

  // ---------------------------------------------------------------- order

  predicate ComesBefore(a: Member, b: Member) {
    a.depth < b.depth || (a.depth == b.depth && Less(Joined(a.relative), Joined(b.relative)))
  }

  /** The manifest's order: shallower members first, then by path. */
  function Sorted(ms: seq<Member>): seq<Member> {
    Sorting.Sort(ComesBefore, ms)
  }

  predicate ObjsDistinct(ms: seq<Member>) {
    forall i, j :: 0 <= i < j < |ms| ==> ms[i].obj != ms[j].obj
  }

  predicate ByDepth(ms: seq<Member>) {
    forall i, j :: 0 <= i < j < |ms| ==> ms[i].depth <= ms[j].depth
  }

  lemma SortHas(ms: seq<Member>, x: Member)
    ensures x in Sorted(ms) <==> x in ms
  {
    Sorting.SortHas(ComesBefore, ms, x);
  }

  /** Sorting puts shallower members first and keeps the objects apart. */
  lemma SortKeeps(ms: seq<Member>)
    ensures ByDepth(Sorted(ms))
    ensures ObjsDistinct(ms) ==> ObjsDistinct(Sorted(ms))
  {
    var depth := (m: Member) => m.depth as int;
    var key := (m: Member) => m.obj;
    hide Sorted, Less, Joined;
    assert Sorting.Agrees(ComesBefore, depth);
    Sorting.SortRanked(ComesBefore, depth, ms);
    RankedByDepth(ms, depth);
    if ObjsDistinct(ms) {
      assert Sorting.KeysDistinct(key, ms);
      Sorting.SortDistinct(ComesBefore, key, ms);
      DistinctObjs(ms, key);
    }
  }

  lemma RankedByDepth(ms: seq<Member>, depth: Member -> int)
    requires (forall m :: depth(m) == m.depth) && Sorting.Ranked(depth, Sorting.Sort(ComesBefore, ms))
    ensures ByDepth(Sorted(ms))
  {
    hide ComesBefore;
    var s := Sorted(ms);
    forall i, j | 0 <= i < j < |s|
      ensures s[i].depth <= s[j].depth
    {
      assert depth(s[i]) <= depth(s[j]);
    }
  }

  lemma DistinctObjs(ms: seq<Member>, key: Member -> Uuid)
    requires (forall m :: key(m) == m.obj) && Sorting.KeysDistinct(key, Sorting.Sort(ComesBefore, ms))
    ensures ObjsDistinct(Sorted(ms))
  {
    hide ComesBefore;
    var s := Sorted(ms);
    forall i, j | 0 <= i < j < |s|
      ensures s[i].obj != s[j].obj
    {
      assert key(s[i]) != key(s[j]);
    }
  }

  // ---------------------------------------------------------------- what the walk finds

  /** The member's create is pending at its place in the queue, after the refused folder, and waits for d alone. */
  predicate CreatedBy(s: State, m: Member, d: Uuid) {
    CreateRow(s, Position(s, m.oldOp), m, d)
  }

  predicate ParentIs(p: Member, m: Member) {
    p.obj == m.parent && p.otype == Folder && p.depth + 1 == m.depth && m.relative == p.relative + [m.name]
  }

  /** A direct member hangs below the refused folder; any other below a folder found before. */
  predicate Placed(s: State, rootOp: Uuid, root: Uuid, ms: seq<Member>, m: Member) {
    if m.depth == 1 then m.parent == root && m.relative == [m.name] && CreatedBy(s, m, rootOp)
    else exists p :: p in ms && ParentIs(p, m) && CreatedBy(s, m, p.oldOp)
  }

  /** The k-th update is pending in the queue behind the operation before it. */
  predicate UpdatedBy(s: State, m: Member, k: nat)
    requires k < |m.chain|
  {
    UpdateRow(s, Position(s, m.chain[k].op), m, k) && Position(s, Previous(m, k)) < Position(s, m.chain[k].op)
  }

  predicate ValidNames(path: Path) {
    forall i :: 0 <= i < |path| ==> ValidComponent(path[i])
  }

  predicate Sound(s: State, start: nat, m: Member) {
    && ValidObjectId(m.obj) && ValidObjectId(m.parent) && m.depth >= 1 && ValidComponent(m.name)
    && m.relative != [] && ValidNames(m.relative) && m.relative[|m.relative| - 1] == m.name
    && start < Position(s, m.oldOp) < |s.rows|
    && (forall k :: 0 <= k < |m.chain| ==> UpdatedBy(s, m, k))
    && FinalOf(m) == m.finalBlob
    && (m.otype == Folder ==> m.createBlob == [] && m.chain == [])
  }

  ghost predicate MintedBelow(mint: nat -> Uuid, m: Member, next: nat) {
    exists k: nat :: 1 <= k < next && m.newOp == mint(k)
  }

  predicate NewOpsApart(ms: seq<Member>) {
    forall a, b :: a in ms && b in ms && a.newOp == b.newOp ==> a.obj == b.obj
  }

  ghost predicate SeenAre(ms: seq<Member>, seen: set<Uuid>) {
    forall o :: o in seen <==> exists m :: m in ms && m.obj == o
  }

  ghost predicate Walked(s: State, rootOp: Uuid, root: Uuid, mint: nat -> Uuid, ms: seq<Member>, seen: set<Uuid>,
                         next: nat) {
    && ObjsDistinct(ms) && SeenAre(ms, seen) && NewOpsApart(ms) && next >= 1
    && forall m :: m in ms ==>
         Placed(s, rootOp, root, ms, m) && Sound(s, Position(s, rootOp), m) && MintedBelow(mint, m, next)
  }

  lemma PlacedStays(s: State, rootOp: Uuid, root: Uuid, ms: seq<Member>, more: seq<Member>, m: Member)
    requires Placed(s, rootOp, root, ms, m)
    ensures Placed(s, rootOp, root, ms + more, m)
  {
    hide CreatedBy, ParentIs;
    if m.depth != 1 {
      var p :| p in ms && ParentIs(p, m) && CreatedBy(s, m, p.oldOp);
      assert p in ms + more;
    }
  }

  lemma MintedStays(mint: nat -> Uuid, m: Member, next: nat)
    requires MintedBelow(mint, m, next)
    ensures MintedBelow(mint, m, next + 1)
  {
  }

  lemma NewMint(s: State, mint: nat -> Uuid, m: Member, next: nat)
    requires FreshIds(s, mint) && MintedBelow(mint, m, next)
    ensures m.newOp != mint(next)
  {
    var k: nat :| 1 <= k < next && m.newOp == mint(k);
    hide HasOp, ValidOperationId;
  }

  lemma AddMember(s: State, rootOp: Uuid, root: Uuid, mint: nat -> Uuid, ms: seq<Member>, seen: set<Uuid>, next: nat,
                  m: Member)
    requires FreshIds(s, mint) && Walked(s, rootOp, root, mint, ms, seen, next)
    requires m.obj !in seen && Placed(s, rootOp, root, ms, m) && Sound(s, Position(s, rootOp), m)
             && m.newOp == mint(next)
    ensures Walked(s, rootOp, root, mint, ms + [m], seen + {m.obj}, next + 1)
  {
    var all := ms + [m];
    hide Placed, Sound, FreshIds, MintedBelow;
    forall x | x in all
      ensures Placed(s, rootOp, root, all, x) && Sound(s, Position(s, rootOp), x) && MintedBelow(mint, x, next + 1)
    {
      PlacedStays(s, rootOp, root, ms, [m], x);
      if x in ms {
        MintedStays(mint, x, next);
      } else {
        LastMinted(mint, x, next);
      }
    }
    forall x | x in ms
      ensures x.newOp != m.newOp
    {
      NewMint(s, mint, x, next);
    }
  }

  lemma LastMinted(mint: nat -> Uuid, m: Member, next: nat)
    requires next >= 1 && m.newOp == mint(next)
    ensures MintedBelow(mint, m, next + 1)
  {
  }

  /** Op is the create or an update of some member. */
  predicate Gathered(ms: seq<Member>, op: Uuid) {
    exists m :: m in ms && (m.oldOp == op || op in ChainOps(m.chain))
  }

  /** Everything waiting for op has been gathered. */
  ghost predicate Exhausted(s: State, ms: seq<Member>, op: Uuid) {
    forall i :: 0 <= i < |s.rows| && op in Deps(s.rows[i].m) ==> Gathered(ms, s.rows[i].m.op)
  }

  ghost predicate MemberExhausted(s: State, ms: seq<Member>, m: Member) {
    forall op :: op == m.oldOp || op in ChainOps(m.chain) ==> Exhausted(s, ms, op)
  }

  /** The members from index n on have everything that waits for them gathered. */
  ghost predicate ExhaustedFrom(s: State, ms: seq<Member>, n: nat) {
    forall i :: n <= i < |ms| ==> MemberExhausted(s, ms, ms[i])
  }

  lemma GatheredStays(ms: seq<Member>, more: seq<Member>, op: Uuid)
    requires Gathered(ms, op)
    ensures Gathered(ms + more, op)
  {
    var m :| m in ms && (m.oldOp == op || op in ChainOps(m.chain));
    assert m in ms + more;
  }

  lemma ExhaustedStays(s: State, ms: seq<Member>, more: seq<Member>, op: Uuid)
    requires Exhausted(s, ms, op)
    ensures Exhausted(s, ms + more, op)
  {
    hide Gathered, Deps;
    forall i | 0 <= i < |s.rows| && op in Deps(s.rows[i].m)
      ensures Gathered(ms + more, s.rows[i].m.op)
    {
      GatheredStays(ms, more, s.rows[i].m.op);
    }
  }

  lemma MemberExhaustedStays(s: State, ms: seq<Member>, more: seq<Member>, m: Member)
    requires MemberExhausted(s, ms, m)
    ensures MemberExhausted(s, ms + more, m)
  {
    hide Exhausted;
    forall op | op == m.oldOp || op in ChainOps(m.chain)
      ensures Exhausted(s, ms + more, op)
    {
      ExhaustedStays(s, ms, more, op);
    }
  }

  lemma ExhaustedFromStays(s: State, ms: seq<Member>, more: seq<Member>, n: nat)
    requires ExhaustedFrom(s, ms, n) && forall m :: m in more ==> MemberExhausted(s, ms + more, m)
    ensures ExhaustedFrom(s, ms + more, n)
  {
    hide MemberExhausted;
    forall i | n <= i < |ms + more|
      ensures MemberExhausted(s, ms + more, (ms + more)[i])
    {
      if i < |ms| {
        MemberExhaustedStays(s, ms, more, ms[i]);
      }
    }
  }

  // ---------------------------------------------------------------- a note's updates

  /** Only the k-th update, if there is one, waits for the operation before it. */
  ghost predicate NextOnly(s: State, m: Member, k: nat)
    requires k <= |m.chain|
  {
    forall i :: 0 <= i < |s.rows| && Previous(m, k) in Deps(s.rows[i].m) ==>
      k < |m.chain| && s.rows[i].m.op == m.chain[k].op
  }

  ghost predicate ChainFound(s: State, m: Member, n: nat)
    requires n <= |m.chain|
  {
    && FinalOf(m) == m.finalBlob && Position(s, Previous(m, n)) < |s.rows|
    && forall k :: 0 <= k < n ==> UpdatedBy(s, m, k) && NextOnly(s, m, k)
  }

  function Extended(m: Member, op: Uuid, hash: Hash): Member {
    m.(chain := m.chain + [ChainOp(op, Previous(m, |m.chain|), hash)], finalBlob := hash)
  }

  lemma PreviousKept(m: Member, op: Uuid, hash: Hash, k: nat)
    requires k <= |m.chain|
    ensures Previous(Extended(m, op, hash), k) == Previous(m, k)
    ensures Previous(Extended(m, op, hash), |m.chain| + 1) == op
    ensures FinalOf(Extended(m, op, hash)) == hash
  {
  }

  lemma UpdateKept(s: State, m: Member, op: Uuid, hash: Hash, k: nat)
    requires k < |m.chain| && UpdatedBy(s, m, k) && NextOnly(s, m, k)
    ensures UpdatedBy(s, Extended(m, op, hash), k) && NextOnly(s, Extended(m, op, hash), k)
  {
    PreviousKept(m, op, hash, k);
    hide Position, Previous, Deps;
  }

  lemma OneDependency(m: Mutation, d: Uuid)
    requires d in Deps(m) && |Deps(m)| == 1
    ensures Deps(m) == {d}
  {
    var deps := Deps(m);
    hide Deps;
    assert |deps - {d}| == 0;
    assert deps - {d} == {};
  }

  lemma Behind(s: State, i: nat, d: Uuid)
    requires WellFormed(s) && i < |s.rows| && d in Deps(s.rows[i].m)
    ensures Position(s, d) < i && Position(s, s.rows[i].m.op) == i
  {
    assert HasOp(s, i, d);
    var j :| 0 <= j < i && s.rows[j].m.op == d;
    IndexIs(s, j, |s.rows|);
    IndexIs(s, i, |s.rows|);
    hide WellFormed, Deps, IndexOf;
  }

  lemma OnlyDependent(s: State, op: Uuid, i: nat)
    requires Dependents(s, op, |s.rows|) == [i]
    ensures i < |s.rows| && op in Deps(s.rows[i].m)
    ensures forall j :: 0 <= j < |s.rows| && op in Deps(s.rows[j].m) ==> j == i
  {
    DependentsAre(s, op, |s.rows|);
    hide Deps, Dependents;
    assert i in [i];
    forall j | 0 <= j < |s.rows| && op in Deps(s.rows[j].m)
      ensures j == i
    {
      assert j in [i];
    }
  }

  lemma NoDependents(s: State, op: Uuid)
    requires Dependents(s, op, |s.rows|) == []
    ensures forall j :: 0 <= j < |s.rows| ==> op !in Deps(s.rows[j].m)
  {
    DependentsAre(s, op, |s.rows|);
    hide Deps, Dependents;
    forall j | 0 <= j < |s.rows|
      ensures op !in Deps(s.rows[j].m)
    {
      assert j !in Dependents(s, op, |s.rows|);
    }
  }

  predicate NextUpdate(s: State, m: Member, i: nat) {
    && i < |s.rows| && s.rows[i].status == Pending && |Deps(s.rows[i].m)| == 1
    && var u := s.rows[i].m;
       u.obj == m.obj && u.kind == Update && u.otype == Note && |u.blob| == HASH_SIZE
  }

  lemma LastUpdated(s: State, m: Member, i: nat)
    requires NextUpdate(s, m, i) && Position(s, s.rows[i].m.op) == i
    requires Deps(s.rows[i].m) == {Previous(m, |m.chain|)} && Position(s, Previous(m, |m.chain|)) < i
    ensures UpdatedBy(s, Extended(m, s.rows[i].m.op, s.rows[i].m.blob), |m.chain|)
  {
    PreviousKept(m, s.rows[i].m.op, s.rows[i].m.blob, |m.chain|);
    hide Position, Previous, Deps;
  }

  lemma LastOnly(s: State, m: Member, i: nat, r: Member)
    requires i < |s.rows| && r == Extended(m, s.rows[i].m.op, s.rows[i].m.blob)
    requires forall j :: 0 <= j < |s.rows| && Previous(m, |m.chain|) in Deps(s.rows[j].m) ==> j == i
    ensures NextOnly(s, r, |m.chain|)
  {
    PreviousKept(m, s.rows[i].m.op, s.rows[i].m.blob, |m.chain|);
    hide Previous, Deps;
  }

  lemma FoundAt(s: State, m: Member, n: nat)
    requires n <= |m.chain| && ChainFound(s, m, n)
    ensures FinalOf(m) == m.finalBlob && Position(s, Previous(m, n)) < |s.rows|
    ensures forall k :: 0 <= k < n ==> UpdatedBy(s, m, k) && NextOnly(s, m, k)
  {
    hide UpdatedBy, NextOnly, Position, Previous, FinalOf;
  }

  lemma FoundIf(s: State, m: Member, n: nat)
    requires n <= |m.chain| && FinalOf(m) == m.finalBlob && Position(s, Previous(m, n)) < |s.rows|
    requires forall k :: 0 <= k < n ==> UpdatedBy(s, m, k) && NextOnly(s, m, k)
    ensures ChainFound(s, m, n)
  {
    hide UpdatedBy, NextOnly, Position, Previous, FinalOf;
  }

  lemma ChainGrows(s: State, m: Member, i: nat)
    requires WellFormed(s) && ChainFound(s, m, |m.chain|) && NextUpdate(s, m, i)
    requires Dependents(s, Previous(m, |m.chain|), |s.rows|) == [i]
    ensures var r := Extended(m, s.rows[i].m.op, s.rows[i].m.blob);
            ChainFound(s, r, |r.chain|) && Previous(r, |r.chain|) == s.rows[i].m.op
            && Position(s, Previous(m, |m.chain|)) < Position(s, s.rows[i].m.op) < |s.rows|
  {
    hide *;
    NextIs(s, m, i);
    OnlyDependent(s, Previous(m, |m.chain|), i);
    var u, n := s.rows[i].m, |m.chain|;
    var r := Extended(m, u.op, u.blob);
    OneDependency(u, Previous(m, n));
    Behind(s, i, Previous(m, n));
    PreviousKept(m, u.op, u.blob, n);
    FoundAt(s, m, n);
    ExtendedIs(m, u.op, u.blob);
    ChainKept(s, m, u.op, u.blob);
    LastUpdated(s, m, i);
    LastOnly(s, m, i, r);
    FoundIf(s, r, n + 1);
  }

  lemma NextIs(s: State, m: Member, i: nat)
    requires NextUpdate(s, m, i)
    ensures i < |s.rows| && |Deps(s.rows[i].m)| == 1
  {
    hide Deps;
  }

  lemma ChainKept(s: State, m: Member, op: Uuid, hash: Hash)
    requires ChainFound(s, m, |m.chain|)
    ensures |Extended(m, op, hash).chain| == |m.chain| + 1
    ensures forall k :: 0 <= k < |m.chain| ==>
              UpdatedBy(s, Extended(m, op, hash), k) && NextOnly(s, Extended(m, op, hash), k)
  {
    hide *;
    FoundAt(s, m, |m.chain|);
    ExtendedIs(m, op, hash);
    forall k | 0 <= k < |m.chain|
      ensures UpdatedBy(s, Extended(m, op, hash), k) && NextOnly(s, Extended(m, op, hash), k)
    {
      UpdateKept(s, m, op, hash, k);
    }
  }

  lemma ExtendedIs(m: Member, op: Uuid, hash: Hash)
    ensures |Extended(m, op, hash).chain| == |m.chain| + 1 && Extended(m, op, hash).finalBlob == hash
  {
  }

  // ---------------------------------------------------------------- the walk

  /** The folder being walked: the refused one itself, or a folder found before. */
  predicate Entry(rootOp: Uuid, root: Uuid, ms: seq<Member>, parentOp: Uuid, parent: Uuid, relative: Path, depth: nat) {
    if depth == 1 then parentOp == rootOp && parent == root && relative == []
    else exists p :: p in ms && p.oldOp == parentOp && p.obj == parent && p.otype == Folder && p.depth + 1 == depth
          && p.relative == relative
  }

  /** Row i is a pending create below the folder that waits for nothing else. */
  predicate ChildOk(s: State, i: nat, parent: Uuid) {
    && i < |s.rows| && s.rows[i].status == Pending && |Deps(s.rows[i].m)| == 1
    && var c := s.rows[i].m;
       c.kind == Create && c.parent == Some(parent) && ValidComponent(c.name)
  }

  predicate BlobOk(c: Mutation) {
    if c.otype == Folder then c.blob == [] else |c.blob| == HASH_SIZE
  }

  function Born(parent: Uuid, relative: Path, depth: nat, c: Mutation, newOp: Uuid): Member {
    Member(c.obj, parent, c.op, newOp, c.otype, c.name, relative + [c.name], depth, 0, 0, c.blob, c.blob, [])
  }

  predicate Completes(b: Member, r: Member) {
    r == b.(chain := r.chain, finalBlob := r.finalBlob)
  }

  lemma CompletesIf(b: Member, r: Member)
    requires r == b.(chain := r.chain, finalBlob := r.finalBlob)
    ensures Completes(b, r)
  {
  }

  lemma ChildNamed(s: State, i: nat, parent: Uuid)
    requires ChildOk(s, i, parent)
    ensures i < |s.rows| && ValidComponent(s.rows[i].m.name)
  {
    hide ValidComponent;
  }

  lemma BornAs(parent: Uuid, relative: Path, depth: nat, c: Mutation, newOp: Uuid, r: Member)
    requires Completes(Born(parent, relative, depth, c, newOp), r)
    ensures r.obj == c.obj && r.newOp == newOp
  {
  }

  lemma BornCreated(s: State, i: nat, parentOp: Uuid, parent: Uuid, relative: Path, depth: nat, newOp: Uuid, r: Member)
    requires WellFormed(s) && ChildOk(s, i, parent) && parentOp in Deps(s.rows[i].m) && BlobOk(s.rows[i].m)
    requires Completes(Born(parent, relative, depth, s.rows[i].m, newOp), r)
    ensures CreatedBy(s, r, parentOp) && Position(s, r.oldOp) == i && Position(s, parentOp) < i
  {
    OneDependency(s.rows[i].m, parentOp);
    Behind(s, i, parentOp);
    hide WellFormed, Position, Deps;
  }

  lemma BornPlaced(s: State, rootOp: Uuid, root: Uuid, ms: seq<Member>, parentOp: Uuid, parent: Uuid, relative: Path,
                   depth: nat, c: Mutation, newOp: Uuid, r: Member)
    requires Entry(rootOp, root, ms, parentOp, parent, relative, depth)
    requires Completes(Born(parent, relative, depth, c, newOp), r) && CreatedBy(s, r, parentOp)
    ensures Placed(s, rootOp, root, ms, r)
  {
    hide CreatedBy;
    if depth != 1 {
      var p :| p in ms && p.oldOp == parentOp && p.obj == parent && p.otype == Folder && p.depth + 1 == depth
          && p.relative == relative;
      assert ParentIs(p, r);
    }
  }

  lemma EntrySound(s: State, rootOp: Uuid, root: Uuid, ms: seq<Member>, parentOp: Uuid, parent: Uuid, relative: Path,
                   depth: nat)
    requires Entry(rootOp, root, ms, parentOp, parent, relative, depth) && ValidObjectId(root)
    requires forall m :: m in ms ==> Sound(s, Position(s, rootOp), m)
    ensures ValidObjectId(parent) && ValidNames(relative) && Position(s, rootOp) <= Position(s, parentOp) && depth >= 1
  {
    hide Position, ValidObjectId;
  }

  lemma NamesGrow(relative: Path, name: string)
    requires ValidNames(relative) && ValidComponent(name)
    ensures ValidNames(relative + [name])
  {
    hide ValidComponent;
  }

  lemma BornSound(s: State, start: nat, parentOp: Uuid, parent: Uuid, relative: Path, depth: nat, c: Mutation,
                  newOp: Uuid, r: Member)
    requires Completes(Born(parent, relative, depth, c, newOp), r) && depth >= 1 && ValidComponent(c.name)
    requires ValidObjectId(c.obj) && ValidObjectId(parent) && ValidNames(relative) && BlobOk(c)
    requires start <= Position(s, parentOp) < Position(s, r.oldOp) < |s.rows|
    requires (forall k :: 0 <= k < |r.chain| ==> UpdatedBy(s, r, k)) && FinalOf(r) == r.finalBlob
             && (r.otype == Folder ==> r.chain == [])
    ensures Sound(s, start, r)
  {
    NamesGrow(relative, c.name);
    hide ValidObjectId, ValidComponent, ValidNames, Position, UpdatedBy, FinalOf;
  }

  lemma WalkedAt(s: State, rootOp: Uuid, root: Uuid, mint: nat -> Uuid, ms: seq<Member>, seen: set<Uuid>, next: nat)
    requires Walked(s, rootOp, root, mint, ms, seen, next)
    ensures forall m :: m in ms ==> Sound(s, Position(s, rootOp), m)
  {
    hide Placed, Sound, MintedBelow, ObjsDistinct, SeenAre, NewOpsApart;
  }

  lemma NoteExhausted(s: State, ms: seq<Member>, r: Member)
    requires forall k :: 0 <= k <= |r.chain| ==> NextOnly(s, r, k)
    ensures MemberExhausted(s, ms + [r], r)
  {
    forall op | op == r.oldOp || op in ChainOps(r.chain)
      ensures Exhausted(s, ms + [r], op)
    {
      ChainHas(r.chain, op);
      var k: nat := 0;
      if op != r.oldOp {
        var x :| 0 <= x < |r.chain| && r.chain[x].op == op;
        k := x + 1;
      }
      assert Previous(r, k) == op && NextOnly(s, r, k);
      hide Deps, ChainOps;
      forall i | 0 <= i < |s.rows| && op in Deps(s.rows[i].m)
        ensures Gathered(ms + [r], s.rows[i].m.op)
      {
        assert s.rows[i].m.op == r.chain[k].op;
        ChainHas(r.chain, r.chain[k].op);
        assert r in ms + [r];
      }
    }
  }

  lemma FolderExhausted(s: State, ms: seq<Member>, m: Member)
    requires m.chain == [] && Exhausted(s, ms, m.oldOp)
    ensures MemberExhausted(s, ms, m)
  {
    hide Exhausted;
  }

  /** Once the new folder and everything below it is exhausted, so is everything from index n on. */
  lemma FolderJoins(s: State, ms: seq<Member>, m: Member, all: seq<Member>, n: nat)
    requires ms + [m] <= all && n <= |ms| && ExhaustedFrom(s, ms, n)
    requires MemberExhausted(s, all, m) && ExhaustedFrom(s, all, |ms| + 1)
    ensures ExhaustedFrom(s, all, n)
  {
    var more := all[|ms|..];
    assert all == ms + more;
    hide MemberExhausted;
    forall x | x in more
      ensures MemberExhausted(s, ms + more, x)
    {
      var i :| 0 <= i < |more| && more[i] == x;
      assert all[|ms| + i] == x;
    }
    ExhaustedFromStays(s, ms, more, n);
  }

  lemma GatheredLast(ms: seq<Member>, r: Member)
    ensures Gathered(ms + [r], r.oldOp)
  {
    assert r in ms + [r];
  }

  lemma AllChildren(s: State, ms: seq<Member>, op: Uuid)
    requires forall a :: 0 <= a < |Dependents(s, op, |s.rows|)| ==>
               Dependents(s, op, |s.rows|)[a] < |s.rows| && Gathered(ms, s.rows[Dependents(s, op, |s.rows|)[a]].m.op)
    ensures Exhausted(s, ms, op)
  {
    DependentsAre(s, op, |s.rows|);
    hide Deps, Gathered, Dependents;
    forall i | 0 <= i < |s.rows| && op in Deps(s.rows[i].m)
      ensures Gathered(ms, s.rows[i].m.op)
    {
      assert i in Dependents(s, op, |s.rows|);
    }
  }

  lemma ChildIs(s: State, op: Uuid, c: nat)
    requires c < |Dependents(s, op, |s.rows|)|
    ensures Dependents(s, op, |s.rows|)[c] < |s.rows| && op in Deps(s.rows[Dependents(s, op, |s.rows|)[c]].m)
  {
    DependentsAre(s, op, |s.rows|);
    hide Deps, Dependents;
    assert Dependents(s, op, |s.rows|)[c] in Dependents(s, op, |s.rows|);
  }

  lemma EntryBelow(rootOp: Uuid, root: Uuid, ms: seq<Member>, m: Member)
    requires m in ms && m.otype == Folder && m.depth >= 1
    ensures Entry(rootOp, root, ms, m.oldOp, m.obj, m.relative, m.depth + 1)
  {
  }

  lemma EntryStays(rootOp: Uuid, root: Uuid, ms: seq<Member>, all: seq<Member>, parentOp: Uuid, parent: Uuid,
                   relative: Path, depth: nat)
    requires ms <= all && Entry(rootOp, root, ms, parentOp, parent, relative, depth)
    ensures Entry(rootOp, root, all, parentOp, parent, relative, depth)
  {
    if depth != 1 {
      var p :| p in ms && p.oldOp == parentOp && p.obj == parent && p.otype == Folder && p.depth + 1 == depth
          && p.relative == relative;
      assert p in all;
    }
  }

  lemma NothingYet(s: State, ms: seq<Member>)
    ensures ExhaustedFrom(s, ms, |ms|)
  {
  }

  lemma BornIs(parent: Uuid, relative: Path, depth: nat, c: Mutation, newOp: Uuid)
    ensures var m := Born(parent, relative, depth, c, newOp);
            && m.oldOp == c.op && m.obj == c.obj && m.otype == c.otype && m.depth == depth
            && m.relative == relative + [c.name]
            && m.chain == [] && m.createBlob == m.finalBlob && FinalOf(m) == m.finalBlob && Completes(m, m)
  {
  }

  lemma KeepGathered(s: State, ms: seq<Member>, more: seq<Member>, all: seq<Member>, rows: seq<nat>, last: Uuid)
    requires ms + more <= all && Gathered(ms + more, last)
    requires forall a :: 0 <= a < |rows| ==> rows[a] < |s.rows| && Gathered(ms, s.rows[rows[a]].m.op)
    ensures Gathered(all, last)
    ensures forall a :: 0 <= a < |rows| ==> rows[a] < |s.rows| && Gathered(all, s.rows[rows[a]].m.op)
  {
    hide Gathered;
    var rest := all[|ms + more|..];
    assert all == (ms + more) + rest;
    assert all == ms + (more + rest);
    GatheredStays(ms + more, rest, last);
    forall a | 0 <= a < |rows|
      ensures Gathered(all, s.rows[rows[a]].m.op)
    {
      GatheredStays(ms, more + rest, s.rows[rows[a]].m.op);
    }
  }
}
