/** A captured manifest, once the folders' identities are filled in, passes every check and is replaced in full. */
module RecursiveCaptured {
  import opened Ids
  import opened Naming
  import opened Outbox
  import opened OutboxExtend
  import opened OutboxProgress
  import opened RecursiveRecovery
  import opened RecursiveReplacement
  import opened RecursiveTree
  import opened RecursiveWalk
  import opened RecursiveNecessity
  import opened RecursiveDiscovery

  // ---------------------------------------------------------------- what discovery promises

  predicate NewOpOk(s: State, man: Manifest, m: Member) {
    ValidOperationId(m.newOp) && !HasOp(s, |s.rows|, m.newOp) && m.newOp != man.newRoot
  }

  /** The object has no row but its create and updates, and no baseline. */
  predicate Standalone(s: State, m: Member) {
    CountOf(s, m.obj, |s.rows|) == 1 + |m.chain| && m.obj !in s.baselines
  }

  ghost predicate MemberFound(s: State, root: Uuid, man: Manifest, m: Member) {
    && Placed(s, man.operation, root, man.members, m) && Sound(s, Position(s, man.operation), m) && NewOpOk(s, man, m)
    && Standalone(s, m) && MemberExhausted(s, man.members, m)
  }

  ghost predicate Discovered(s: State, root: Uuid, man: Manifest) {
    && ValidOperationId(man.newRoot) && !HasOp(s, |s.rows|, man.newRoot)
    && ObjsDistinct(man.members) && ByDepth(man.members) && NewOpsApart(man.members)
    && (forall m :: m in man.members ==> MemberFound(s, root, man, m))
    && Exhausted(s, man.members, man.operation)
  }

  lemma FoundMember(s: State, root: Uuid, man: Manifest, m: Member)
    requires Discovered(s, root, man) && m in man.members
    ensures Placed(s, man.operation, root, man.members, m) && Sound(s, Position(s, man.operation), m)
            && NewOpOk(s, man, m)
    ensures Standalone(s, m) && MemberExhausted(s, man.members, m)
  {
    hide Placed, Sound, NewOpOk, Standalone, MemberExhausted, ObjsDistinct, ByDepth, NewOpsApart, Exhausted,
         ValidOperationId, HasOp, Position;
  }

  // ---------------------------------------------------------------- the discovery method

  datatype Discovery = Nothing | Refused | Captured(man: Manifest)

  /** A pending folder create waits for the refused folder. */
  predicate NestedFolder(s: State, rootOp: Uuid) {
    exists i :: 0 <= i < |s.rows| && rootOp in Deps(s.rows[i].m) && s.rows[i].m.kind == Create
        && s.rows[i].m.otype == Folder
                && s.rows[i].status == Pending
  }

  ghost predicate SameMembers(a: seq<Member>, b: seq<Member>) {
    forall m :: m in a <==> m in b
  }

  lemma GatheredSame(a: seq<Member>, b: seq<Member>, op: Uuid)
    requires SameMembers(a, b) && Gathered(a, op)
    ensures Gathered(b, op)
  {
    var m :| m in a && (m.oldOp == op || op in ChainOps(m.chain));
    assert m in b;
  }

  lemma ExhaustedSame(s: State, a: seq<Member>, b: seq<Member>, op: Uuid)
    requires SameMembers(a, b) && Exhausted(s, a, op)
    ensures Exhausted(s, b, op)
  {
    hide Gathered, Deps, SameMembers;
    forall i | 0 <= i < |s.rows| && op in Deps(s.rows[i].m)
      ensures Gathered(b, s.rows[i].m.op)
    {
      GatheredSame(a, b, s.rows[i].m.op);
    }
  }

  lemma MemberExhaustedSame(s: State, a: seq<Member>, b: seq<Member>, m: Member)
    requires SameMembers(a, b) && MemberExhausted(s, a, m)
    ensures MemberExhausted(s, b, m)
  {
    hide Exhausted, SameMembers;
    forall op | op == m.oldOp || op in ChainOps(m.chain)
      ensures Exhausted(s, b, op)
    {
      ExhaustedSame(s, a, b, op);
    }
  }

  lemma PlacedSame(s: State, rootOp: Uuid, root: Uuid, a: seq<Member>, b: seq<Member>, m: Member)
    requires SameMembers(a, b) && Placed(s, rootOp, root, a, m)
    ensures Placed(s, rootOp, root, b, m)
  {
    hide CreatedBy, ParentIs;
    if m.depth != 1 {
      var p :| p in a && ParentIs(p, m) && CreatedBy(s, m, p.oldOp);
      assert p in b;
    }
  }

  lemma MintedOk(s: State, mint: nat -> Uuid, man: Manifest, m: Member, next: nat)
    requires FreshIds(s, mint) && MintedBelow(mint, m, next) && man.newRoot == mint(0)
    ensures NewOpOk(s, man, m)
  {
    var k: nat :| 1 <= k < next && m.newOp == mint(k);
    hide HasOp, ValidOperationId;
  }

  lemma SortedSame(ms: seq<Member>)
    ensures SameMembers(ms, Sorted(ms))
  {
    forall m
      ensures m in ms <==> m in Sorted(ms)
    {
      SortHas(ms, m);
    }
    hide Sorted;
  }

  lemma ApartSame(a: seq<Member>, b: seq<Member>)
    requires SameMembers(a, b) && NewOpsApart(a)
    ensures NewOpsApart(b)
  {
  }

  lemma WalkedParts(s: State, rootOp: Uuid, root: Uuid, mint: nat -> Uuid, ms: seq<Member>, seen: set<Uuid>, next: nat)
    requires Walked(s, rootOp, root, mint, ms, seen, next)
    ensures ObjsDistinct(ms) && NewOpsApart(ms)
    ensures forall m :: m in ms ==>
              Placed(s, rootOp, root, ms, m) && Sound(s, Position(s, rootOp), m) && MintedBelow(mint, m, next)
  {
    hide Placed, Sound, MintedBelow, ObjsDistinct, SeenAre, NewOpsApart;
  }

  lemma ExhaustedMember(s: State, ms: seq<Member>, m: Member)
    requires ExhaustedFrom(s, ms, 0) && m in ms
    ensures MemberExhausted(s, ms, m)
  {
    hide MemberExhausted;
    var i :| 0 <= i < |ms| && ms[i] == m;
  }

  lemma FoundMemberIf(s: State, root: Uuid, man: Manifest, m: Member)
    requires Placed(s, man.operation, root, man.members, m) && Sound(s, Position(s, man.operation), m)
             && NewOpOk(s, man, m)
    requires Standalone(s, m) && MemberExhausted(s, man.members, m)
    ensures MemberFound(s, root, man, m)
  {
  }

  lemma FreshAt(s: State, mint: nat -> Uuid, k: nat)
    requires FreshIds(s, mint)
    ensures ValidOperationId(mint(k)) && !HasOp(s, |s.rows|, mint(k))
  {
    hide ValidOperationId, HasOp;
  }

  lemma DiscoveredIf(s: State, root: Uuid, man: Manifest)
    requires ValidOperationId(man.newRoot) && !HasOp(s, |s.rows|, man.newRoot)
    requires ObjsDistinct(man.members) && ByDepth(man.members) && NewOpsApart(man.members)
    requires (forall m :: m in man.members ==> MemberFound(s, root, man, m)) && Exhausted(s, man.members, man.operation)
    ensures Discovered(s, root, man)
  {
    hide MemberFound, ObjsDistinct, ByDepth, NewOpsApart, Exhausted, ValidOperationId, HasOp;
  }

  /** The walk's members, sorted, make a manifest. */
  lemma WalkDiscovered(s: State, rootOp: Uuid, root: Uuid, mint: nat -> Uuid, ms: seq<Member>, seen: set<Uuid>,
                       next: nat)
    requires FreshIds(s, mint) && Walked(s, rootOp, root, mint, ms, seen, next)
    requires Exhausted(s, ms, rootOp) && ExhaustedFrom(s, ms, 0) && forall m :: m in ms ==> Standalone(s, m)
    ensures Discovered(s, root, Manifest(rootOp, mint(0), Sorted(ms)))
  {
    var man := Manifest(rootOp, mint(0), Sorted(ms));
    hide *;
    SortedSame(ms);
    SortKeeps(ms);
    WalkedParts(s, rootOp, root, mint, ms, seen, next);
    ApartSame(ms, Sorted(ms));
    ExhaustedSame(s, ms, Sorted(ms), rootOp);
    FreshAt(s, mint, 0);
    forall m | m in man.members
      ensures MemberFound(s, root, man, m)
    {
      SortHas(ms, m);
      PlacedSame(s, rootOp, root, ms, Sorted(ms), m);
      MintedOk(s, mint, man, m, next);
      ExhaustedMember(s, ms, m);
      MemberExhaustedSame(s, ms, Sorted(ms), m);
      FoundMemberIf(s, root, man, m);
    }
    DiscoveredIf(s, root, man);
  }

  lemma NothingWalked(s: State, rootOp: Uuid, root: Uuid, mint: nat -> Uuid)
    ensures Walked(s, rootOp, root, mint, [], {}, 1)
  {
    hide Placed, Sound, MintedBelow;
  }

  lemma NestedQueued(s: State, rootOp: Uuid)
    requires WellFormed(s) && NestedFolder(s, rootOp)
    ensures Position(s, rootOp) < |s.rows|
  {
    var i :| 0 <= i < |s.rows| && rootOp in Deps(s.rows[i].m) && s.rows[i].m.kind == Create
        && s.rows[i].m.otype == Folder
             && s.rows[i].status == Pending;
    hide Deps, WellFormed, Position;
    Behind(s, i, rootOp);
  }

  lemma EntryRoot(rootOp: Uuid, root: Uuid)
    ensures Entry(rootOp, root, [], rootOp, root, [], 1)
  {
  }

  lemma NothingRequired(s: State, rootOp: Uuid, root: Uuid)
    ensures AllRequired(s, rootOp, root, []) && NoneWaits(s, [], rootOp)
  {
  }

  /** Captures the pending creates and updates queued below the refused folder, if a folder is among them; refuses
      exactly the queues no manifest could describe. */
  method Discover(s: State, rootOp: Uuid, root: Uuid, mint: nat -> Uuid) returns (r: Discovery)
    requires WellFormed(s) && RowsValid(s) && FreshIds(s, mint)
    ensures r.Captured? ==> r.man.operation == rootOp && Discovered(s, root, r.man)
    ensures r.Nothing? <==> ValidOperationId(rootOp) && ValidObjectId(root) && !NestedFolder(s, rootOp)
    ensures r.Refused? && ValidOperationId(rootOp) && ValidObjectId(root) ==> NoManifest(s, rootOp, root)
  {
    hide *;
    if !ValidOperationId(rootOp) || !ValidObjectId(root) {
      return Refused;
    }
    if !NestedFolder(s, rootOp) {
      return Nothing;
    }
    var w := new Walker(s, rootOp, root, mint);
    NestedQueued(s, rootOp);
    NothingWalked(s, rootOp, root, mint);
    w.ValidIf();
    EntryRoot(rootOp, root);
    NothingRequired(s, rootOp, root);
    var ok := w.WalkFolder(rootOp, root, [], 1);
    if !ok {
      return Refused;
    }
    w.ValidIs();
    var ms := w.members;
    ghost var seen, next := w.seen, w.next;
    WalkedSeen(s, rootOp, root, mint, ms, seen, next);
    for k := 0 to |ms|
      invariant forall j :: 0 <= j < k ==> Standalone(s, ms[j])
    {
      ghost var d := PlacedRow(s, rootOp, root, ms, ms[k]);
      RequiredOf(s, rootOp, root, ms, ms[k]);
      if CountOf(s, ms[k].obj, |s.rows|) != 1 + |ms[k].chain| {
        HistoryFails(s, rootOp, root, ms[k], d);
        return Refused;
      }
      if ms[k].obj in s.baselines {
        HistoryFails(s, rootOp, root, ms[k], d);
        return Refused;
      }
      StandaloneIf(s, ms[k]);
    }
    AllStandalone(s, ms);
    WalkDiscovered(s, rootOp, root, mint, ms, seen, next);
    r := Captured(Manifest(rootOp, mint(0), Sorted(ms)));
  }

  lemma AllStandalone(s: State, ms: seq<Member>)
    requires forall j :: 0 <= j < |ms| ==> Standalone(s, ms[j])
    ensures forall m :: m in ms ==> Standalone(s, m)
  {
    hide Standalone;
  }

  lemma StandaloneIf(s: State, m: Member)
    requires CountOf(s, m.obj, |s.rows|) == 1 + |m.chain| && m.obj !in s.baselines
    ensures Standalone(s, m)
  {
  }

  // ---------------------------------------------------------------- filling in the folders' identities

  /** b is a with a folder's device and inode filled in. */
  predicate Identified(a: Member, b: Member) {
    && b == a.(device := b.device, inode := b.inode)
    && (if b.otype == Folder then 0 < b.device <= MAX_INT64 && 0 < b.inode <= MAX_INT64
        else b.device == 0 && b.inode == 0)
  }

  ghost predicate Filled(man: Manifest, full: Manifest) {
    && full.operation == man.operation && full.newRoot == man.newRoot && |full.members| == |man.members|
    && forall i :: 0 <= i < |man.members| ==> Identified(man.members[i], full.members[i])
  }

  predicate ShortPaths(man: Manifest) {
    forall i :: 0 <= i < |man.members| ==> JoinedLength(man.members[i].relative) <= MAX_RELATIVE_PATH_BYTES
  }

  ghost predicate Mirrors(a: seq<Member>, b: seq<Member>) {
    |a| == |b| && forall i :: 0 <= i < |a| ==> Identified(a[i], b[i])
  }

  lemma GatheredMirror(a: seq<Member>, b: seq<Member>, op: Uuid)
    requires Mirrors(a, b) && Gathered(a, op)
    ensures Gathered(b, op)
  {
    var m :| m in a && (m.oldOp == op || op in ChainOps(m.chain));
    var i :| 0 <= i < |a| && a[i] == m;
    assert Identified(a[i], b[i]) && b[i] in b;
  }

  lemma ExhaustedMirror(s: State, a: seq<Member>, b: seq<Member>, op: Uuid)
    requires Mirrors(a, b) && Exhausted(s, a, op)
    ensures Exhausted(s, b, op)
  {
    hide Gathered, Deps, Mirrors;
    forall i | 0 <= i < |s.rows| && op in Deps(s.rows[i].m)
      ensures Gathered(b, s.rows[i].m.op)
    {
      GatheredMirror(a, b, s.rows[i].m.op);
    }
  }

  lemma MemberExhaustedMirror(s: State, a: seq<Member>, b: seq<Member>, m: Member, f: Member)
    requires Mirrors(a, b) && MemberExhausted(s, a, m) && Identified(m, f)
    ensures MemberExhausted(s, b, f)
  {
    hide Exhausted, Mirrors;
    forall op | op == m.oldOp || op in ChainOps(m.chain)
      ensures Exhausted(s, b, op)
    {
      ExhaustedMirror(s, a, b, op);
    }
  }

  lemma CreatedMirror(s: State, m: Member, f: Member, d: Uuid)
    requires CreatedBy(s, m, d) && Identified(m, f)
    ensures CreatedBy(s, f, d)
  {
    hide Position, Deps;
  }

  lemma PlacedMirror(s: State, rootOp: Uuid, root: Uuid, a: seq<Member>, b: seq<Member>, m: Member, f: Member)
    requires Mirrors(a, b) && Placed(s, rootOp, root, a, m) && Identified(m, f)
    ensures Placed(s, rootOp, root, b, f)
  {
    hide CreatedBy;
    if m.depth == 1 {
      CreatedMirror(s, m, f, rootOp);
    } else {
      var p :| p in a && ParentIs(p, m) && CreatedBy(s, m, p.oldOp);
      var i :| 0 <= i < |a| && a[i] == p;
      assert Identified(p, b[i]) && b[i] in b;
      CreatedMirror(s, m, f, p.oldOp);
      assert ParentIs(b[i], f);
    }
  }

  lemma UpdatedMirror(s: State, m: Member, f: Member, k: nat)
    requires Identified(m, f) && k < |m.chain| && UpdatedBy(s, m, k)
    ensures UpdatedBy(s, f, k)
  {
    assert Previous(f, k) == Previous(m, k);
    hide Position, Deps, Previous;
  }

  lemma SoundMirror(s: State, start: nat, m: Member, f: Member)
    requires Identified(m, f) && Sound(s, start, m)
    ensures Sound(s, start, f)
  {
    assert FinalOf(f) == FinalOf(m);
    hide UpdatedBy, Position, ValidNames, ValidComponent, ValidObjectId, FinalOf;
    forall k | 0 <= k < |f.chain|
      ensures UpdatedBy(s, f, k)
    {
      UpdatedMirror(s, m, f, k);
    }
  }

  lemma FoundMirror(s: State, root: Uuid, man: Manifest, full: Manifest, m: Member, f: Member)
    requires Filled(man, full) && Discovered(s, root, man) && m in man.members && Identified(m, f)
    ensures MemberFound(s, root, full, f)
  {
    hide *;
    FoundMember(s, root, man, m);
    FilledIs(man, full);
    PlacedMirror(s, man.operation, root, man.members, full.members, m, f);
    SoundMirror(s, Position(s, man.operation), m, f);
    MemberExhaustedMirror(s, man.members, full.members, m, f);
    RestMirror(s, man, full, m, f);
    FoundMemberIf(s, root, full, f);
  }

  lemma FilledIs(man: Manifest, full: Manifest)
    requires Filled(man, full)
    ensures Mirrors(man.members, full.members) && full.operation == man.operation && full.newRoot == man.newRoot
  {
    hide Identified;
  }

  lemma RestMirror(s: State, man: Manifest, full: Manifest, m: Member, f: Member)
    requires Identified(m, f) && NewOpOk(s, man, m) && Standalone(s, m) && full.newRoot == man.newRoot
    ensures NewOpOk(s, full, f) && Standalone(s, f)
  {
    hide ValidOperationId, HasOp, CountOf;
  }

  lemma ListMirror(a: seq<Member>, b: seq<Member>)
    requires Mirrors(a, b)
    ensures ObjsDistinct(a) ==> ObjsDistinct(b)
    ensures ByDepth(a) ==> ByDepth(b)
  {
  }

  lemma ApartMirror(a: seq<Member>, b: seq<Member>)
    requires Mirrors(a, b) && NewOpsApart(a)
    ensures NewOpsApart(b)
  {
    forall x, y | x in b && y in b && x.newOp == y.newOp
      ensures x.obj == y.obj
    {
      var i :| 0 <= i < |b| && b[i] == x;
      var j :| 0 <= j < |b| && b[j] == y;
      assert Identified(a[i], b[i]) && Identified(a[j], b[j]);
      assert a[i] in a && a[j] in a;
    }
  }

  lemma OriginalOf(man: Manifest, full: Manifest, f: Member) returns (m: Member)
    requires Filled(man, full) && f in full.members
    ensures m in man.members && Identified(m, f)
  {
    var i :| 0 <= i < |full.members| && full.members[i] == f;
    m := man.members[i];
    hide Identified;
  }

  lemma DiscoveredIs(s: State, root: Uuid, man: Manifest)
    requires Discovered(s, root, man)
    ensures ValidOperationId(man.newRoot) && !HasOp(s, |s.rows|, man.newRoot)
    ensures ObjsDistinct(man.members) && ByDepth(man.members) && NewOpsApart(man.members)
    ensures Exhausted(s, man.members, man.operation)
  {
    hide MemberFound, ObjsDistinct, ByDepth, NewOpsApart, Exhausted, ValidOperationId, HasOp;
  }

  /** Filling in identities keeps everything discovery promises. */
  lemma FilledDiscovered(s: State, root: Uuid, man: Manifest, full: Manifest)
    requires Discovered(s, root, man) && Filled(man, full)
    ensures Discovered(s, root, full)
  {
    hide *;
    DiscoveredIs(s, root, man);
    FilledIs(man, full);
    ListMirror(man.members, full.members);
    ApartMirror(man.members, full.members);
    ExhaustedMirror(s, man.members, full.members, man.operation);
    forall f | f in full.members
      ensures MemberFound(s, root, full, f)
    {
      var m := OriginalOf(man, full, f);
      FoundMirror(s, root, man, full, m, f);
    }
    DiscoveredIf(s, root, full);
  }

  // ---------------------------------------------------------------- shape

  predicate Fits(m: Member) {
    && (if m.otype == Folder then 0 < m.device <= MAX_INT64 && 0 < m.inode <= MAX_INT64
        else m.device == 0 && m.inode == 0)
    && JoinedLength(m.relative) <= MAX_RELATIVE_PATH_BYTES
  }

  lemma PositionIs(s: State, op: Uuid)
    requires Position(s, op) < |s.rows|
    ensures s.rows[Position(s, op)].m.op == op && HasOp(s, |s.rows|, op)
  {
  }

  lemma RowOpValid(s: State, i: nat)
    requires RowsValid(s) && i < |s.rows|
    ensures ValidOperationId(s.rows[i].m.op)
  {
    assert ValidMutation(s.rows[i].m);
    hide ValidOperationId, ValidObjectId, ValidComponent, Deps;
  }

  lemma SoundIs(s: State, start: nat, m: Member)
    requires Sound(s, start, m)
    ensures ValidObjectId(m.obj) && ValidObjectId(m.parent) && m.depth >= 1 && ValidComponent(m.name)
    ensures m.relative != [] && ValidNames(m.relative) && m.relative[|m.relative| - 1] == m.name
    ensures start < Position(s, m.oldOp) < |s.rows|
    ensures forall k :: 0 <= k < |m.chain| ==> UpdatedBy(s, m, k)
    ensures FinalOf(m) == m.finalBlob
            && (m.otype == Folder ==> m.createBlob == [] && m.chain == [] && m.finalBlob == [])
  {
    hide ValidObjectId, ValidComponent, ValidNames, Position, UpdatedBy;
  }

  lemma ShapeIf(m: Member)
    requires ValidObjectId(m.obj) && ValidObjectId(m.parent) && ValidOperationId(m.oldOp) && ValidOperationId(m.newOp)
             && m.oldOp != m.newOp
    requires m.depth >= 1 && ValidComponent(m.name) && m.relative != [] && ValidNames(m.relative)
             && m.relative[|m.relative| - 1] == m.name
    requires m.otype == Folder ==> m.createBlob == [] && m.chain == [] && m.finalBlob == []
    requires Fits(m)
    ensures MemberShape(m)
  {
    hide ValidObjectId, ValidOperationId, ValidComponent, JoinedLength;
  }

  lemma MemberShapeOk(s: State, root: Uuid, man: Manifest, m: Member)
    requires RowsValid(s) && Discovered(s, root, man) && m in man.members && Fits(m)
    ensures MemberShape(m)
  {
    hide *;
    FoundMember(s, root, man, m);
    SoundIs(s, Position(s, man.operation), m);
    PositionIs(s, m.oldOp);
    RowOpValid(s, Position(s, m.oldOp));
    NewOpIs(s, man, m);
    ShapeIf(m);
  }

  lemma NewOpIs(s: State, man: Manifest, m: Member)
    requires NewOpOk(s, man, m)
    ensures ValidOperationId(m.newOp) && !HasOp(s, |s.rows|, m.newOp) && m.newOp != man.newRoot
  {
    hide ValidOperationId, HasOp;
  }

  // ---------------------------------------------------------------- operations

  /** The operation is queued after the refused folder, for the member's object. */
  predicate QueuedFor(s: State, start: nat, op: Uuid, obj: Uuid) {
    start < Position(s, op) < |s.rows| && s.rows[Position(s, op)].m.obj == obj
  }

  lemma CreatedObj(s: State, m: Member, d: Uuid)
    requires CreatedBy(s, m, d)
    ensures Position(s, m.oldOp) < |s.rows| && s.rows[Position(s, m.oldOp)].m.obj == m.obj
  {
    hide Position, Deps;
  }

  lemma PlacedObj(s: State, rootOp: Uuid, root: Uuid, ms: seq<Member>, m: Member)
    requires Placed(s, rootOp, root, ms, m)
    ensures Position(s, m.oldOp) < |s.rows| && s.rows[Position(s, m.oldOp)].m.obj == m.obj
  {
    hide CreatedBy, ParentIs, Position;
    if m.depth == 1 {
      CreatedObj(s, m, rootOp);
    } else {
      var p :| p in ms && ParentIs(p, m) && CreatedBy(s, m, p.oldOp);
      CreatedObj(s, m, p.oldOp);
    }
  }

  lemma UpdatedObj(s: State, m: Member, k: nat)
    requires k < |m.chain| && UpdatedBy(s, m, k)
    ensures Position(s, m.chain[k].op) < |s.rows| && s.rows[Position(s, m.chain[k].op)].m.obj == m.obj
    ensures Position(s, Previous(m, k)) < Position(s, m.chain[k].op)
  {
    hide Position, Deps, Previous;
  }

  /** Positions grow along a chain. */
  lemma {:induction false} ChainPositions(s: State, m: Member, j: nat, k: nat)
    requires (forall i :: 0 <= i < |m.chain| ==> UpdatedBy(s, m, i)) && j < k <= |m.chain|
    ensures Position(s, Previous(m, j)) < Position(s, Previous(m, k))
  {
    UpdatedObj(s, m, k - 1);
    assert Previous(m, k) == m.chain[k - 1].op;
    hide UpdatedBy, Position;
    if j < k - 1 {
      ChainPositions(s, m, j, k - 1);
    }
  }

  lemma OldOpQueued(s: State, root: Uuid, man: Manifest, m: Member, op: Uuid)
    requires Discovered(s, root, man) && m in man.members && (op == m.oldOp || op in ChainOps(m.chain))
    ensures QueuedFor(s, Position(s, man.operation), op, m.obj)
  {
    hide *;
    FoundMember(s, root, man, m);
    SoundIs(s, Position(s, man.operation), m);
    PlacedObj(s, man.operation, root, man.members, m);
    if op != m.oldOp {
      ChainHas(m.chain, op);
      var k :| 0 <= k < |m.chain| && m.chain[k].op == op;
      UpdatedObj(s, m, k);
      ChainPositions(s, m, 0, k + 1);
      PreviousAt(m, k);
    }
    QueuedForIf(s, Position(s, man.operation), op, m.obj);
  }

  lemma PreviousAt(m: Member, k: nat)
    requires k < |m.chain|
    ensures Previous(m, 0) == m.oldOp && Previous(m, k + 1) == m.chain[k].op
  {
  }

  lemma QueuedForIf(s: State, start: nat, op: Uuid, obj: Uuid)
    requires start < Position(s, op) < |s.rows| && s.rows[Position(s, op)].m.obj == obj
    ensures QueuedFor(s, start, op, obj)
  {
    hide Position;
  }

  /** A queued operation is not one minted for the recovery, nor the refused one, nor another object's. */
  lemma QueuedApart(s: State, man: Manifest, op: Uuid, obj: Uuid, other: Uuid, otherObj: Uuid)
    requires QueuedFor(s, Position(s, man.operation), op, obj)
    ensures op != man.operation && HasOp(s, |s.rows|, op)
    ensures QueuedFor(s, Position(s, man.operation), other, otherObj) && obj != otherObj ==> op != other
  {
    PositionIs(s, op);
    hide Position, HasOp;
  }

  lemma OpsOfIs(m: Member, op: Uuid)
    ensures op in OpsOf(m) <==> op == m.oldOp || op == m.newOp || op in ChainOps(m.chain)
  {
  }

  lemma ObjsApart(man: Manifest, i: nat, j: nat)
    requires ObjsDistinct(man.members) && j < i < |man.members|
    ensures man.members[j].obj != man.members[i].obj
  {
  }

  lemma OldOpNotOf(s: State, root: Uuid, man: Manifest, j: nat, i: nat, op: Uuid)
    requires Discovered(s, root, man) && j < i < |man.members|
    requires op == man.members[i].oldOp || op in ChainOps(man.members[i].chain)
    ensures op !in OpsOf(man.members[j])
  {
    var a, b := man.members[j], man.members[i];
    hide *;
    DiscoveredIs(s, root, man);
    ObjsApart(man, i, j);
    FoundMember(s, root, man, a);
    NewOpIs(s, man, a);
    OldOpQueued(s, root, man, b, op);
    OpsOfIs(a, op);
    QueuedApart(s, man, op, b.obj, op, a.obj);
    if op == a.oldOp || op in ChainOps(a.chain) {
      OldOpQueued(s, root, man, a, op);
    }
  }

  lemma ApartAre(ms: seq<Member>, a: Member, b: Member)
    requires NewOpsApart(ms) && a in ms && b in ms && a.obj != b.obj
    ensures a.newOp != b.newOp
  {
  }

  lemma NewOpNotOf(s: State, root: Uuid, man: Manifest, j: nat, i: nat)
    requires Discovered(s, root, man) && j < i < |man.members|
    ensures man.members[i].newOp !in OpsOf(man.members[j])
  {
    var a, b := man.members[j], man.members[i];
    hide *;
    DiscoveredIs(s, root, man);
    ObjsApart(man, i, j);
    ApartAre(man.members, a, b);
    FoundMember(s, root, man, b);
    NewOpIs(s, man, b);
    OpsOfIs(a, b.newOp);
    if b.newOp == a.oldOp || b.newOp in ChainOps(a.chain) {
      OldOpQueued(s, root, man, a, b.newOp);
      QueuedApart(s, man, b.newOp, a.obj, b.newOp, a.obj);
      assert false;
    }
  }

  lemma {:induction false} NotSeenBy(man: Manifest, n: nat, op: Uuid)
    requires n <= |man.members| && op != man.operation && op != man.newRoot
    requires forall j :: 0 <= j < n ==> op !in OpsOf(man.members[j])
    ensures op !in SeenOps(man, n)
  {
    hide OpsOf;
    if n > 0 {
      NotSeenBy(man, n - 1, op);
    }
  }

  lemma OldOpUnseen(s: State, root: Uuid, man: Manifest, i: nat, op: Uuid)
    requires Discovered(s, root, man) && i < |man.members|
    requires op == man.members[i].oldOp || op in ChainOps(man.members[i].chain)
    ensures op !in SeenOps(man, i) && op != man.members[i].newOp
  {
    var m := man.members[i];
    hide *;
    DiscoveredIs(s, root, man);
    OldOpQueued(s, root, man, m, op);
    QueuedApart(s, man, op, m.obj, op, m.obj);
    FoundMember(s, root, man, m);
    NewOpIs(s, man, m);
    forall j | 0 <= j < i
      ensures op !in OpsOf(man.members[j])
    {
      OldOpNotOf(s, root, man, j, i, op);
    }
    NotSeenBy(man, i, op);
  }

  lemma NewOpUnseenBy(s: State, root: Uuid, man: Manifest, i: nat)
    requires Discovered(s, root, man) && i < |man.members|
    ensures man.members[i].newOp !in SeenOps(man, i)
  {
    var m := man.members[i];
    hide *;
    DiscoveredIs(s, root, man);
    FoundMember(s, root, man, m);
    SoundIs(s, Position(s, man.operation), m);
    PositionIs(s, man.operation);
    NewOpIs(s, man, m);
    forall j | 0 <= j < i
      ensures m.newOp !in OpsOf(man.members[j])
    {
      NewOpNotOf(s, root, man, j, i);
    }
    NotSeenBy(man, i, m.newOp);
  }

  lemma ChainApart(s: State, m: Member, k: nat)
    requires (forall i :: 0 <= i < |m.chain| ==> UpdatedBy(s, m, i)) && k < |m.chain|
    ensures m.chain[k].op != m.oldOp && m.chain[k].op !in ChainOps(m.chain[..k])
  {
    var op := m.chain[k].op;
    hide *;
    PreviousAt(m, k);
    ChainPositions(s, m, 0, k + 1);
    ChainHas(m.chain[..k], op);
    forall j | 0 <= j < k
      ensures m.chain[..k][j].op != op
    {
      PreviousAt(m, j);
      ChainPositions(s, m, j + 1, k + 1);
    }
  }

  lemma OpsNewIf(m: Member, seen: set<Uuid>)
    requires m.oldOp !in seen && m.newOp !in seen
    requires forall k :: 0 <= k < |m.chain| ==>
               m.chain[k].op !in seen && m.chain[k].op != m.oldOp && m.chain[k].op != m.newOp
                   && m.chain[k].op !in ChainOps(m.chain[..k])
    ensures OpsNew(m, seen)
  {
    hide ChainOps;
  }

  lemma OpsNewOk(s: State, root: Uuid, man: Manifest, i: nat)
    requires Discovered(s, root, man) && i < |man.members|
    ensures OpsNew(man.members[i], SeenOps(man, i))
  {
    var m := man.members[i];
    hide *;
    FoundMember(s, root, man, m);
    SoundIs(s, Position(s, man.operation), m);
    OldOpUnseen(s, root, man, i, m.oldOp);
    NewOpUnseenBy(s, root, man, i);
    forall k | 0 <= k < |m.chain|
      ensures m.chain[k].op !in SeenOps(man, i) && m.chain[k].op != m.oldOp && m.chain[k].op != m.newOp
              && m.chain[k].op !in ChainOps(m.chain[..k])
    {
      ChainHas(m.chain, m.chain[k].op);
      OldOpUnseen(s, root, man, i, m.chain[k].op);
      ChainApart(s, m, k);
    }
    OpsNewIf(m, SeenOps(man, i));
  }

  // ---------------------------------------------------------------- nesting, order and the queue

  lemma FindDistinct(man: Manifest, k: nat)
    requires ObjsDistinct(man.members) && k < |man.members|
    ensures Find(man.members, man.members[k].obj) == k
  {
    hide Find;
    FindIs(man.members, k);
  }

  /** A deeper member's parent stands earlier in the manifest, and its create is what the member's own create waits
      for. */
  lemma ParentFound(s: State, root: Uuid, man: Manifest, i: nat) returns (j: nat)
    requires Discovered(s, root, man) && i < |man.members| && man.members[i].depth != 1
    ensures j < i && IsParent(man, j, i) && Find(man.members, man.members[i].parent) == j
    ensures CreatedBy(s, man.members[i], man.members[j].oldOp)
  {
    hide *;
    FoundPlaced(s, root, man, i);
    var p := PlacedParent(s, man.operation, root, man.members, man.members[i]);
    j := IndexIn(man.members, p);
    FindDistinct(man, j);
    ParentEarlier(man, i, j);
  }

  lemma FoundPlaced(s: State, root: Uuid, man: Manifest, i: nat)
    requires Discovered(s, root, man) && i < |man.members|
    ensures Placed(s, man.operation, root, man.members, man.members[i]) && ObjsDistinct(man.members)
            && ByDepth(man.members)
  {
    hide *;
    FoundMember(s, root, man, man.members[i]);
    DiscoveredIs(s, root, man);
  }

  lemma IndexIn(ms: seq<Member>, m: Member) returns (j: nat)
    requires m in ms
    ensures j < |ms| && ms[j] == m
  {
    j :| 0 <= j < |ms| && ms[j] == m;
  }

  lemma PlacedParent(s: State, rootOp: Uuid, root: Uuid, ms: seq<Member>, m: Member) returns (p: Member)
    requires Placed(s, rootOp, root, ms, m) && m.depth != 1
    ensures p in ms && ParentIs(p, m) && CreatedBy(s, m, p.oldOp) && p.obj == m.parent
  {
    p :| p in ms && ParentIs(p, m) && CreatedBy(s, m, p.oldOp);
    hide CreatedBy;
  }

  lemma ParentEarlier(man: Manifest, i: nat, j: nat)
    requires ByDepth(man.members) && i < |man.members| && j < |man.members| && ParentIs(man.members[j], man.members[i])
    ensures j < i && IsParent(man, j, i)
  {
    assert man.members[i].relative[..|man.members[i].relative| - 1] == man.members[j].relative;
  }

  lemma NestedOk(s: State, root: Uuid, man: Manifest, i: nat)
    requires Discovered(s, root, man) && i < |man.members|
    ensures Nested(man, i)
  {
    var m := man.members[i];
    hide *;
    FoundMember(s, root, man, m);
    if m.depth == 1 {
      DirectIs(s, man.operation, root, man.members, m);
      NestedDirect(man, i);
    } else {
      var j := ParentFound(s, root, man, i);
      NestedBelow(man, i, j);
    }
  }

  lemma DirectIs(s: State, rootOp: Uuid, root: Uuid, ms: seq<Member>, m: Member)
    requires Placed(s, rootOp, root, ms, m) && m.depth == 1
    ensures m.parent == root && |m.relative| == 1 && CreatedBy(s, m, rootOp)
  {
    hide CreatedBy;
  }

  lemma NestedDirect(man: Manifest, i: nat)
    requires i < |man.members| && man.members[i].depth == 1 && |man.members[i].relative| == 1
    ensures Nested(man, i)
  {
  }

  lemma NestedBelow(man: Manifest, i: nat, j: nat)
    requires i < |man.members| && j < |man.members| && IsParent(man, j, i) && man.members[i].depth != 1
    ensures Nested(man, i)
  {
    hide IsParent;
  }

  lemma QueuedOk(s: State, root: Uuid, man: Manifest, i: nat)
    requires Discovered(s, root, man) && i < |man.members|
    ensures MemberQueued(s, man, root, man.members[i])
  {
    var m := man.members[i];
    hide *;
    FoundMember(s, root, man, m);
    SoundIs(s, Position(s, man.operation), m);
    StandaloneIs(s, m);
    forall k | 0 <= k < |m.chain|
      ensures UpdateRow(s, IndexOf(s, m.chain[k].op, |s.rows|), m, k)
    {
      UpdatedRow(s, m, k);
    }
    if m.depth == 1 {
      DirectIs(s, man.operation, root, man.members, m);
      CreatedRow(s, m, man.operation);
      DirectDependency(man, m);
    } else {
      var j := ParentFound(s, root, man, i);
      CreatedRow(s, m, man.members[j].oldOp);
      DependencyOf(man, m);
    }
    QueuedIf(s, man, root, m);
  }

  lemma StandaloneIs(s: State, m: Member)
    requires Standalone(s, m)
    ensures CountOf(s, m.obj, |s.rows|) == 1 + |m.chain| && m.obj !in s.baselines
  {
  }

  lemma UpdatedRow(s: State, m: Member, k: nat)
    requires k < |m.chain| && UpdatedBy(s, m, k)
    ensures UpdateRow(s, IndexOf(s, m.chain[k].op, |s.rows|), m, k)
  {
    hide UpdateRow, IndexOf, Previous;
  }

  lemma CreatedRow(s: State, m: Member, d: Uuid)
    requires CreatedBy(s, m, d)
    ensures CreateRow(s, IndexOf(s, m.oldOp, |s.rows|), m, d)
  {
    hide CreateRow, IndexOf;
  }

  lemma DirectDependency(man: Manifest, m: Member)
    requires m.depth == 1
    ensures Dependency(man, m) == man.operation
  {
  }

  lemma QueuedIf(s: State, man: Manifest, root: Uuid, m: Member)
    requires m.depth == 1 ==> m.parent == root
    requires CreateRow(s, IndexOf(s, m.oldOp, |s.rows|), m, Dependency(man, m))
    requires forall k :: 0 <= k < |m.chain| ==> UpdateRow(s, IndexOf(s, m.chain[k].op, |s.rows|), m, k)
    requires FinalOf(m) == m.finalBlob && CountOf(s, m.obj, |s.rows|) == 1 + |m.chain| && m.obj !in s.baselines
    ensures MemberQueued(s, man, root, m)
  {
    hide CreateRow, UpdateRow, IndexOf, Dependency, FinalOf, CountOf;
  }

  lemma GatheredOld(man: Manifest, op: Uuid)
    ensures Gathered(man.members, op) <==> OldOpOf(man, op)
  {
    if Gathered(man.members, op) {
      var m :| m in man.members && (m.oldOp == op || op in ChainOps(m.chain));
      var k :| 0 <= k < |man.members| && man.members[k] == m;
      MemberInManifest(man, k, op);
    }
    if OldOpOf(man, op) {
      var k :| 0 <= k < |man.members| && (man.members[k].oldOp == op || op in ChainOps(man.members[k].chain));
      assert man.members[k] in man.members;
    }
  }

  lemma ExhaustedOp(s: State, root: Uuid, man: Manifest, op: Uuid)
    requires Discovered(s, root, man) && (op == man.operation || OldOpOf(man, op))
    ensures Exhausted(s, man.members, op)
  {
    hide *;
    DiscoveredIs(s, root, man);
    if op != man.operation {
      GatheredOld(man, op);
      var m := GatheredBy(man.members, op);
      FoundMember(s, root, man, m);
      ExhaustedOpOf(s, man.members, m, op);
    }
  }

  lemma GatheredBy(ms: seq<Member>, op: Uuid) returns (m: Member)
    requires Gathered(ms, op)
    ensures m in ms && (m.oldOp == op || op in ChainOps(m.chain))
  {
    m :| m in ms && (m.oldOp == op || op in ChainOps(m.chain));
  }

  lemma ExhaustedOpOf(s: State, ms: seq<Member>, m: Member, op: Uuid)
    requires MemberExhausted(s, ms, m) && (m.oldOp == op || op in ChainOps(m.chain))
    ensures Exhausted(s, ms, op)
  {
    hide Exhausted;
  }

  lemma ExhaustedRow(s: State, ms: seq<Member>, op: Uuid, i: nat)
    requires Exhausted(s, ms, op) && i < |s.rows| && op in Deps(s.rows[i].m)
    ensures Gathered(ms, s.rows[i].m.op)
  {
    hide Gathered, Deps;
  }

  lemma CompleteOk(s: State, root: Uuid, man: Manifest)
    requires Discovered(s, root, man)
    ensures Complete(s, man)
  {
    hide *;
    forall i, d | 0 <= i < |s.rows| && d in Deps(s.rows[i].m) && (d == man.operation || OldOpOf(man, d))
      ensures OldOpOf(man, s.rows[i].m.op)
    {
      ExhaustedOp(s, root, man, d);
      ExhaustedRow(s, man.members, d, i);
      GatheredOld(man, s.rows[i].m.op);
    }
    CompleteIf(s, man);
  }

  lemma CompleteIf(s: State, man: Manifest)
    requires forall i, d :: 0 <= i < |s.rows| && d in Deps(s.rows[i].m) && (d == man.operation || OldOpOf(man, d)) ==>
               OldOpOf(man, s.rows[i].m.op)
    ensures Complete(s, man)
  {
    hide OldOpOf, Deps;
  }

  lemma ObjsBeforeIf(man: Manifest, i: nat)
    requires ObjsDistinct(man.members) && i < |man.members|
    ensures ObjsBefore(man, i)
  {
  }

  lemma ShapeOk(s: State, root: Uuid, man: Manifest)
    requires RowsValid(s) && Discovered(s, root, man) && forall i :: 0 <= i < |man.members| ==> Fits(man.members[i])
    ensures ManifestShape(man)
  {
    hide *;
    forall i | 0 <= i < |man.members|
      ensures MemberShape(man.members[i]) && ObjsBefore(man, i) && OpsNew(man.members[i], SeenOps(man, i))
              && Nested(man, i)
    {
      MemberShapeOk(s, root, man, man.members[i]);
      DiscoveredIs(s, root, man);
      ObjsBeforeIf(man, i);
      OpsNewOk(s, root, man, i);
      NestedOk(s, root, man, i);
    }
    ManifestShapeIf(man);
  }

  lemma ManifestShapeIf(man: Manifest)
    requires forall i :: 0 <= i < |man.members| ==>
               MemberShape(man.members[i]) && ObjsBefore(man, i) && OpsNew(man.members[i], SeenOps(man, i))
                   && Nested(man, i)
    ensures ManifestShape(man)
  {
    hide MemberShape, ObjsBefore, OpsNew, SeenOps, Nested;
  }

  lemma TopologyIf(s: State, man: Manifest, root: Uuid)
    requires ManifestShape(man) && Complete(s, man)
             && forall k :: 0 <= k < |man.members| ==> MemberQueued(s, man, root, man.members[k])
    ensures TopologyOk(s, man, root)
  {
    hide ManifestShape, Complete, MemberQueued;
  }

  lemma ParentsFirstOk(s: State, root: Uuid, man: Manifest)
    requires Discovered(s, root, man)
    ensures ParentsFirst(man)
  {
    hide *;
    forall i | 0 <= i < |man.members| && man.members[i].depth > 1
      ensures Find(man.members, man.members[i].parent) < i
    {
      var j := ParentFound(s, root, man, i);
    }
    ParentsFirstIf(man);
  }

  lemma ParentsFirstIf(man: Manifest)
    requires forall i :: 0 <= i < |man.members| && man.members[i].depth > 1 ==>
               Find(man.members, man.members[i].parent) < i
    ensures ParentsFirst(man)
  {
    hide Find;
  }

  lemma FilledFits(man: Manifest, full: Manifest, i: nat)
    requires Filled(man, full) && ShortPaths(man) && i < |man.members|
    ensures Fits(full.members[i])
  {
    assert Identified(man.members[i], full.members[i]);
    hide JoinedLength;
  }

  /** In an unchanged outbox a captured manifest, with the folders' identities filled in and its paths within the limit,
      passes shape and topology validation, and lists every folder before what is inside it. */
  lemma CapturedValidates(s: State, root: Uuid, man: Manifest, full: Manifest)
    requires WellFormed(s) && RowsValid(s) && Discovered(s, root, man) && Filled(man, full) && ShortPaths(man)
    ensures TopologyOk(s, full, root) && ParentsFirst(full)
  {
    hide *;
    FilledDiscovered(s, root, man, full);
    forall i | 0 <= i < |full.members|
      ensures Fits(full.members[i])
    {
      FilledIs(man, full);
      MirrorLength(man.members, full.members);
      FilledFits(man, full, i);
    }
    ShapeOk(s, root, full);
    CompleteOk(s, root, full);
    forall k | 0 <= k < |full.members|
      ensures MemberQueued(s, full, root, full.members[k])
    {
      QueuedOk(s, root, full, k);
    }
    TopologyIf(s, full, root);
    ParentsFirstOk(s, root, full);
  }

  lemma MirrorLength(a: seq<Member>, b: seq<Member>)
    requires Mirrors(a, b)
    ensures |a| == |b|
  {
  }

  /** The recovered root's identity is new to the outbox and the manifest. */
  ghost predicate RootFresh(s: State, man: Manifest, recovered: Uuid) {
    && ValidObjectId(recovered) && recovered !in s.baselines
    && (forall i :: 0 <= i < |s.rows| ==> s.rows[i].m.obj != recovered)
    && forall k :: 0 <= k < |man.members| ==> man.members[k].obj != recovered
  }

  lemma MintedIf(s: State, man: Manifest, recovered: Uuid)
    requires RootFresh(s, man, recovered) && ValidOperationId(man.newRoot) && !HasOp(s, |s.rows|, man.newRoot)
    requires forall k :: 0 <= k < |man.members| ==> !HasOp(s, |s.rows|, man.members[k].newOp)
    ensures MintedFresh(s, man, recovered)
  {
    hide ValidOperationId, ValidObjectId, HasOp;
  }

  /** Retiring what was captured and queueing the replacements is then accepted in full, and keeps the outbox sound. */
  lemma CapturedReplaced(s: State, root: Uuid, man: Manifest, full: Manifest, recovered: Uuid, rootName: string)
    requires Invariant(s) && RowsValid(s) && Discovered(s, root, man) && Filled(man, full) && ShortPaths(man)
    requires RootFresh(s, full, recovered) && ValidComponent(rootName)
    ensures var ms := Replacements(full, recovered, rootName, |full.members|);
            var t := EnqueueAll(Running(Retired(s, full), {}), ms);
            && t.Running? && t.s == Extend(Retired(s, full), ms)
            && Invariant(t.s) && (NoneStranded(s) ==> NoneStranded(t.s))
  {
    hide *;
    InvariantFormed(s);
    CapturedValidates(s, root, man, full);
    FilledDiscovered(s, root, man, full);
    DiscoveredIs(s, root, full);
    forall k | 0 <= k < |full.members|
      ensures !HasOp(s, |s.rows|, full.members[k].newOp)
    {
      FoundMember(s, root, full, full.members[k]);
      NewOpIs(s, full, full.members[k]);
    }
    MintedIf(s, full, recovered);
    TransactionKeeps(s, full, root, recovered, rootName);
  }
}
