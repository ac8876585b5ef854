/** The validating loops and the transaction that retires a manifest's operations and builds their replacements. */
module RecursiveStore {
  import opened Ids
  import opened Optional
  import opened Outbox
  import opened OutboxRetire
  import opened RecursiveRecovery
  import opened RecursiveReplacement
  import opened RecursiveTree

  predicate ShapeAt(man: Manifest, i: nat)
    requires i < |man.members|
  {
    MemberShape(man.members[i]) && ObjsBefore(man, i) && OpsNew(man.members[i], SeenOps(man, i))
  }

  ghost predicate Indexed(man: Manifest, n: nat, byId: map<Uuid, Member>)
    requires n <= |man.members|
  {
    && (forall o :: o in byId ==> exists j :: 0 <= j < n && man.members[j] == byId[o] && byId[o].obj == o)
    && (forall j :: 0 <= j < n ==> man.members[j].obj in byId)
  }

  lemma ShapeParts(man: Manifest)
    ensures ManifestShape(man)
            <==> (forall i :: 0 <= i < |man.members| ==> ShapeAt(man, i))
                 && (forall i :: 0 <= i < |man.members| ==> Nested(man, i))
  {
    hide MemberShape, ObjsBefore, OpsNew, SeenOps, Nested;
    if ManifestShape(man) {
      forall i | 0 <= i < |man.members|
        ensures ShapeAt(man, i) && Nested(man, i)
      {
        ShapeOf(man, i);
      }
    }
    if (forall i :: 0 <= i < |man.members| ==> ShapeAt(man, i))
        && (forall i :: 0 <= i < |man.members| ==> Nested(man, i)) {
      forall i | 0 <= i < |man.members|
        ensures MemberShape(man.members[i]) && ObjsBefore(man, i) && OpsNew(man.members[i], SeenOps(man, i))
                && Nested(man, i)
      {
        assert ShapeAt(man, i);
      }
    }
  }

  lemma NotIndexed(man: Manifest, n: nat, byId: map<Uuid, Member>)
    requires n < |man.members| && Indexed(man, n, byId)
    ensures man.members[n].obj in byId <==> !ObjsBefore(man, n)
  {
  }

  lemma IndexNext(man: Manifest, n: nat, byId: map<Uuid, Member>)
    requires n < |man.members| && Indexed(man, n, byId) && ObjsBefore(man, n)
    ensures Indexed(man, n + 1, byId[man.members[n].obj := man.members[n]])
  {
    var next := byId[man.members[n].obj := man.members[n]];
    forall o | o in next
      ensures exists j :: 0 <= j < n + 1 && man.members[j] == next[o] && next[o].obj == o
    {
      if o == man.members[n].obj {
        assert man.members[n] == next[o];
      } else {
        var j :| 0 <= j < n && man.members[j] == byId[o] && byId[o].obj == o;
      }
    }
  }

  lemma SeenNext(man: Manifest, n: nat)
    requires n < |man.members|
    ensures var m := man.members[n]; SeenOps(man, n + 1) == SeenOps(man, n) + {m.oldOp, m.newOp} + ChainOps(m.chain)
  {
  }

  lemma ChainNext(chain: seq<ChainOp>, k: nat)
    requires k < |chain|
    ensures ChainOps(chain[..k + 1]) == ChainOps(chain[..k]) + {chain[k].op}
  {
    assert chain[..k + 1][..k] == chain[..k];
  }

  lemma WholeChain(m: Member)
    ensures ChainOps(m.chain[..0]) == {} && m.chain[..|m.chain|] == m.chain
  {
  }

  predicate ChainOpNew(m: Member, seen: set<Uuid>, k: nat)
    requires k < |m.chain|
  {
    m.chain[k].op !in seen + {m.oldOp, m.newOp} + ChainOps(m.chain[..k])
  }

  lemma OpsNewIs(m: Member, seen: set<Uuid>)
    ensures OpsNew(m, seen) <==> m.oldOp !in seen && m.newOp !in seen
                                 && forall k :: 0 <= k < |m.chain| ==> ChainOpNew(m, seen, k)
  {
    hide ChainOps;
    if m.oldOp !in seen && m.newOp !in seen && forall k :: 0 <= k < |m.chain| ==> ChainOpNew(m, seen, k) {
      forall k | 0 <= k < |m.chain|
        ensures m.chain[k].op !in seen + {m.oldOp, m.newOp} + ChainOps(m.chain[..k])
      {
        assert ChainOpNew(m, seen, k);
      }
    }
  }

  lemma ChainOpNewIs(m: Member, seen: set<Uuid>, k: nat)
    requires k < |m.chain|
    ensures ChainOpNew(m, seen, k) <==> m.chain[k].op !in seen + {m.oldOp, m.newOp} + ChainOps(m.chain[..k])
  {
    hide ChainOps;
  }

  /** Names the operations of one member that were not seen before; `ok` only if all of them are new. */
  method TakeOperations(man: Manifest, i: nat, seen: set<Uuid>) returns (ok: bool, all: set<Uuid>)
    requires i < |man.members| && seen == SeenOps(man, i)
    ensures ok <==> OpsNew(man.members[i], seen)
    ensures ok ==> all == SeenOps(man, i + 1)
  {
    var m := man.members[i];
    hide *;
    OpsNewIs(m, seen);
    all := seen;
    if m.oldOp in all || m.newOp in all {
      return false, all;
    }
    all := all + {m.oldOp, m.newOp};
    WholeChain(m);
    for k := 0 to |m.chain|
      invariant all == seen + {m.oldOp, m.newOp} + ChainOps(m.chain[..k])
      invariant forall j :: 0 <= j < k ==> ChainOpNew(m, seen, j)
    {
      ChainOpNewIs(m, seen, k);
      if m.chain[k].op in all {
        return false, all;
      }
      ChainNext(m.chain, k);
      all := all + {m.chain[k].op};
    }
    SeenNext(man, i);
    ok := true;
  }

  lemma NestedBy(man: Manifest, i: nat, byId: map<Uuid, Member>)
    requires i < |man.members| && Indexed(man, |man.members|, byId)
             && forall j :: 0 <= j < |man.members| ==> ShapeAt(man, j)
    requires man.members[i].depth != 1
    ensures var m := man.members[i];
            Nested(man, i) <==> (m.parent in byId && byId[m.parent].otype == Folder
                                 && byId[m.parent].depth + 1 == m.depth
                                 && m.relative != [] && byId[m.parent].relative == m.relative[..|m.relative| - 1])
  {
    var m := man.members[i];
    hide MemberShape, OpsNew, SeenOps;
    if m.parent in byId {
      var j :| 0 <= j < |man.members| && man.members[j] == byId[m.parent] && byId[m.parent].obj == m.parent;
      forall k | 0 <= k < |man.members| && man.members[k].obj == m.parent
        ensures k == j
      {
        assert ShapeAt(man, k) && ShapeAt(man, j);
      }
      assert IsParent(man, j, i)
             <==> (byId[m.parent].otype == Folder && byId[m.parent].depth + 1 == m.depth && m.relative != []
                                       && byId[m.parent].relative == m.relative[..|m.relative| - 1]);
      if Nested(man, i) {
        var k :| 0 <= k < |man.members| && IsParent(man, k, i);
        assert k == j;
      }
    } else {
      assert forall k :: 0 <= k < |man.members| ==> man.members[k].obj != m.parent;
    }
  }

  /** Accepts exactly the well-shaped manifests. */
  method ValidateShape(man: Manifest) returns (ok: bool)
    ensures ok <==> ManifestShape(man)
  {
    hide *;
    ShapeParts(man);
    var byId: map<Uuid, Member> := map[];
    var seen: set<Uuid> := {man.operation, man.newRoot};
    NothingIndexed(man);
    for i := 0 to |man.members|
      invariant Indexed(man, i, byId) && seen == SeenOps(man, i)
      invariant forall j :: 0 <= j < i ==> ShapeAt(man, j)
    {
      var m := man.members[i];
      NotIndexed(man, i, byId);
      ShapeAtIs(man, i);
      if !MemberShape(m) || m.obj in byId {
        return false;
      }
      IndexNext(man, i, byId);
      byId := byId[m.obj := m];
      var fresh_;
      fresh_, seen := TakeOperations(man, i, seen);
      if !fresh_ {
        return false;
      }
    }
    for i := 0 to |man.members|
      invariant forall j :: 0 <= j < i ==> Nested(man, j)
    {
      var m := man.members[i];
      if m.depth == 1 {
        NestedDirectIff(man, i);
        if |m.relative| != 1 {
          return false;
        }
      } else {
        NestedBy(man, i, byId);
        if m.parent !in byId || byId[m.parent].otype != Folder || byId[m.parent].depth + 1 != m.depth
           || m.relative == [] || byId[m.parent].relative != m.relative[..|m.relative| - 1] {
          return false;
        }
      }
    }
    ok := true;
  }

  lemma NothingIndexed(man: Manifest)
    ensures Indexed(man, 0, map[]) && SeenOps(man, 0) == {man.operation, man.newRoot}
  {
  }

  lemma ShapeAtIs(man: Manifest, i: nat)
    requires i < |man.members|
    ensures ShapeAt(man, i) <==> MemberShape(man.members[i]) && ObjsBefore(man, i)
                                 && OpsNew(man.members[i], SeenOps(man, i))
  {
    hide MemberShape, ObjsBefore, OpsNew, SeenOps;
  }

  lemma NestedDirectIff(man: Manifest, i: nat)
    requires i < |man.members| && man.members[i].depth == 1
    ensures Nested(man, i) <==> |man.members[i].relative| == 1
  {
  }

  // ---------------------------------------------------------------- topology

  lemma ChainHasSet(man: Manifest, n: nat, ops: set<Uuid>)
    requires n < |man.members| && ManifestedBefore(man, n, ops)
    ensures ManifestedBefore(man, n + 1, ops + {man.members[n].oldOp} + ChainOps(man.members[n].chain))
  {
    hide ChainOps;
  }

  /** The operations of the first n members that are to be retired. */
  ghost predicate ManifestedBefore(man: Manifest, n: nat, ops: set<Uuid>)
    requires n <= |man.members|
  {
    forall op :: op in ops <==> exists k :: 0 <= k < n
                                 && (man.members[k].oldOp == op || op in ChainOps(man.members[k].chain))
  }

  lemma ManifestedAll(man: Manifest, ops: set<Uuid>)
    requires ManifestedBefore(man, |man.members|, ops)
    ensures forall op :: op in ops <==> OldOpOf(man, op)
  {
    hide ChainOps;
  }

  /** The chain's operations, one after the other. */
  method ChainOperations(chain: seq<ChainOp>) returns (ops: set<Uuid>)
    ensures ops == ChainOps(chain)
  {
    ops := {};
    for k := 0 to |chain|
      invariant ops == ChainOps(chain[..k])
    {
      ChainNext(chain, k);
      ops := ops + {chain[k].op};
    }
    assert chain[..|chain|] == chain;
  }

  /** Checks one member against the outbox. */
  method ValidateMember(s: State, man: Manifest, root: Uuid, m: Member) returns (ok: bool)
    ensures ok <==> MemberQueued(s, man, root, m)
  {
    hide IndexOf, CountOf, Dependency, CreateRow, UpdateRow, FinalOf;
    if m.depth == 1 && m.parent != root {
      return false;
    }
    if !CreateRow(s, IndexOf(s, m.oldOp, |s.rows|), m, Dependency(man, m)) {
      return false;
    }
    var final := m.createBlob;
    FinalBy(m, 0);
    for k := 0 to |m.chain|
      invariant forall j :: 0 <= j < k ==> UpdateRow(s, IndexOf(s, m.chain[j].op, |s.rows|), m, j)
      invariant final == FinalAt(m, k)
    {
      if !UpdateRow(s, IndexOf(s, m.chain[k].op, |s.rows|), m, k) {
        return false;
      }
      final := m.chain[k].hash;
    }
    FinalBy(m, |m.chain|);
    if m.otype == Note && final != m.finalBlob {
      return false;
    }
    ok := CountOf(s, m.obj, |s.rows|) == 1 + |m.chain| && m.obj !in s.baselines;
  }

  function FinalAt(m: Member, k: nat): Hash
    requires k <= |m.chain|
  {
    if k == 0 then m.createBlob else m.chain[k - 1].hash
  }

  lemma FinalBy(m: Member, k: nat)
    requires k <= |m.chain|
    ensures k == |m.chain| ==> FinalAt(m, k) == FinalOf(m)
  {
  }

  predicate RowComplete(s: State, man: Manifest, i: nat)
    requires i < |s.rows|
  {
    (exists d :: d in Deps(s.rows[i].m) && (d == man.operation || OldOpOf(man, d))) ==> OldOpOf(man, s.rows[i].m.op)
  }

  lemma CompleteIs(s: State, man: Manifest)
    ensures Complete(s, man) <==> forall i :: 0 <= i < |s.rows| ==> RowComplete(s, man, i)
  {
    hide OldOpOf, Deps;
    if forall i :: 0 <= i < |s.rows| ==> RowComplete(s, man, i) {
      forall i, d | 0 <= i < |s.rows| && d in Deps(s.rows[i].m) && (d == man.operation || OldOpOf(man, d))
        ensures OldOpOf(man, s.rows[i].m.op)
      {
        assert RowComplete(s, man, i);
      }
    }
  }

  lemma RowCompleteBy(s: State, man: Manifest, i: nat, ops: set<Uuid>)
    requires i < |s.rows| && forall op :: op in ops <==> OldOpOf(man, op)
    ensures RowComplete(s, man, i)
            <==> ((man.operation in Deps(s.rows[i].m) || Deps(s.rows[i].m) * ops != {}) ==> s.rows[i].m.op in ops)
  {
    hide OldOpOf, Deps;
    if d :| d in Deps(s.rows[i].m) && OldOpOf(man, d) {
      assert d in Deps(s.rows[i].m) * ops;
    }
    if d :| d in Deps(s.rows[i].m) * ops {
      assert OldOpOf(man, d);
    }
  }

  lemma TopologyIs(s: State, man: Manifest, root: Uuid)
    ensures TopologyOk(s, man, root) <==>
            ManifestShape(man) && (forall k :: 0 <= k < |man.members| ==> MemberQueued(s, man, root, man.members[k]))
                && Complete(s, man)
  {
    hide ManifestShape, MemberQueued, Complete;
  }

  lemma NothingManifested(man: Manifest)
    ensures ManifestedBefore(man, 0, {})
  {
  }

  /** Accepts exactly the manifests that still match the outbox, with nothing else waiting for their operations. */
  method ValidateTopology(s: State, man: Manifest, root: Uuid) returns (ok: bool)
    ensures ok <==> TopologyOk(s, man, root)
  {
    hide *;
    TopologyIs(s, man, root);
    var shape := ValidateShape(man);
    if !shape {
      return false;
    }
    var manifested: set<Uuid> := {};
    NothingManifested(man);
    for k := 0 to |man.members|
      invariant ManifestedBefore(man, k, manifested)
    {
      var chain := ChainOperations(man.members[k].chain);
      ChainHasSet(man, k, manifested);
      manifested := manifested + {man.members[k].oldOp} + chain;
    }
    ManifestedAll(man, manifested);
    for k := 0 to |man.members|
      invariant forall j :: 0 <= j < k ==> MemberQueued(s, man, root, man.members[j])
    {
      var queued := ValidateMember(s, man, root, man.members[k]);
      if !queued {
        return false;
      }
    }
    CompleteIs(s, man);
    for i := 0 to |s.rows|
      invariant forall j :: 0 <= j < i ==> RowComplete(s, man, j)
    {
      RowCompleteBy(s, man, i, manifested);
      if (man.operation in Deps(s.rows[i].m) || Deps(s.rows[i].m) * manifested != {}) && s.rows[i].m.op !in manifested {
        return false;
      }
    }
    ok := true;
  }

  // ---------------------------------------------------------------- retiring and replacing

  lemma OldOpsAre(m: Member, op: Uuid)
    ensures op in OldOpsOf(m) <==> op == m.oldOp || op in ChainOps(m.chain)
    ensures op in OldOpsOf(m) ==> op in OpsOf(m)
  {
  }

  function TailOps(chain: seq<ChainOp>, j: nat): set<Uuid>
    requires j <= |chain|
    decreases |chain| - j
  {
    if j == |chain| then {} else TailOps(chain, j + 1) + {chain[j].op}
  }

  lemma {:induction false} TailHas(chain: seq<ChainOp>, j: nat, op: Uuid)
    requires j <= |chain|
    ensures op in TailOps(chain, j) <==> exists k :: j <= k < |chain| && chain[k].op == op
    decreases |chain| - j
  {
    if j < |chain| {
      TailHas(chain, j + 1, op);
    }
  }

  lemma WholeTail(m: Member)
    ensures TailOps(m.chain, 0) + {m.oldOp} == OldOpsOf(m)
  {
    forall op
      ensures op in TailOps(m.chain, 0) <==> op in ChainOps(m.chain)
    {
      TailHas(m.chain, 0, op);
      ChainHas(m.chain, op);
    }
    hide TailOps, ChainOps;
  }

  /** An operation of one member is not among those of later members. */
  lemma NotGone(man: Manifest, i: nat, op: Uuid)
    requires ManifestShape(man) && i < |man.members| && op in OldOpsOf(man.members[i])
    ensures op !in Gone(man, i + 1)
  {
    hide *;
    GoneHas(man, i + 1, op);
    OldOpsAre(man.members[i], op);
    forall k | i + 1 <= k < |man.members|
      ensures op !in OldOpsOf(man.members[k])
    {
      OldOpsAre(man.members[k], op);
      if op in OldOpsOf(man.members[k]) {
        OpOfOne(man, i, k, op);
      }
    }
  }

  lemma ChainOpNotGone(man: Manifest, i: nat, j: nat)
    requires ManifestShape(man) && i < |man.members| && j < |man.members[i].chain|
    ensures man.members[i].chain[j].op !in Gone(man, i + 1) + TailOps(man.members[i].chain, j + 1)
  {
    var m := man.members[i];
    hide *;
    ChainHas(m.chain, m.chain[j].op);
    OldOpsAre(m, m.chain[j].op);
    NotGone(man, i, m.chain[j].op);
    TailHas(m.chain, j + 1, m.chain[j].op);
    ShapeOf(man, i);
    forall k | j + 1 <= k < |m.chain|
      ensures m.chain[k].op != m.chain[j].op
    {
      ChainDistinct(m, SeenOps(man, i), j, k);
    }
  }

  lemma CreateNotGone(man: Manifest, i: nat)
    requires ManifestShape(man) && i < |man.members|
    ensures man.members[i].oldOp !in Gone(man, i + 1) + TailOps(man.members[i].chain, 0)
  {
    var m := man.members[i];
    hide *;
    OldOpsAre(m, m.oldOp);
    NotGone(man, i, m.oldOp);
    TailHas(m.chain, 0, m.oldOp);
    ShapeOf(man, i);
    forall k | 0 <= k < |m.chain|
      ensures m.chain[k].op != m.oldOp
    {
      FirstDistinct(m, SeenOps(man, i), k);
    }
  }

  /** Supersedes the pending row of op that the test still matches; `ok` tells whether there is one. */
  method RetireRow(t: State, op: Uuid, obj: Uuid, otype: ObjectType, kind: Kind, blob: Option<Hash>)
    returns (ok: bool, u: State)
    ensures var i := IndexOf(t, op, |t.rows|);
            ok <==> i < |t.rows| && t.rows[i].status == Pending && t.rows[i].m.obj == obj && t.rows[i].m.otype == otype
                    && t.rows[i].m.kind == kind
                        && (blob == None || t.rows[i].m.blob == blob.value)
    ensures ok ==> u == SetStatus(t, IndexOf(t, op, |t.rows|), Superseded)
  {
    var i := IndexOf(t, op, |t.rows|);
    u := t;
    ok := i < |t.rows| && t.rows[i].status == Pending && t.rows[i].m.obj == obj && t.rows[i].m.otype == otype
        && t.rows[i].m.kind == kind
          && (blob == None || t.rows[i].m.blob == blob.value);
    if ok {
      u := SetStatus(t, i, Superseded);
    }
  }

  lemma UpdateRowIs(s: State, i: nat, m: Member, k: nat)
    requires k < |m.chain| && UpdateRow(s, i, m, k)
    ensures i < |s.rows| && s.rows[i].status == Pending && s.rows[i].m.op == m.chain[k].op && s.rows[i].m.obj == m.obj
    ensures s.rows[i].m.otype == Note && s.rows[i].m.kind == Update && s.rows[i].m.blob == m.chain[k].hash
  {
  }

  lemma CreateRowIs(s: State, i: nat, m: Member, d: Uuid)
    requires CreateRow(s, i, m, d)
    ensures i < |s.rows| && s.rows[i].status == Pending && s.rows[i].m.op == m.oldOp && s.rows[i].m.obj == m.obj
    ensures s.rows[i].m.otype == m.otype && s.rows[i].m.kind == Create
  {
  }

  lemma TailNext(chain: seq<ChainOp>, j: nat)
    requires j < |chain|
    ensures TailOps(chain, j) == TailOps(chain, j + 1) + {chain[j].op}
  {
  }

  lemma GoneNext(man: Manifest, i: nat)
    requires i < |man.members|
    ensures Gone(man, i) == Gone(man, i + 1) + OldOpsOf(man.members[i])
  {
  }

  lemma NoneGone(s: State, man: Manifest)
    ensures Gone(man, |man.members|) == {} && Marked(s, {}) == s
  {
    assert Marked(s, {}).rows == s.rows;
  }

  lemma NoTail(chain: seq<ChainOp>)
    ensures TailOps(chain, |chain|) == {}
  {
  }

  /** Retires the updates of one member, latest first, and then its create. */
  method RetireMember(ghost s: State, ghost man: Manifest, ghost root: Uuid, ghost i: nat, m: Member, t: State)
    returns (ok: bool, u: State)
    requires WellFormed(s) && TopologyOk(s, man, root) && i < |man.members| && man.members[i] == m
             && t == Marked(s, Gone(man, i + 1))
    ensures ok && u == Marked(s, Gone(man, i))
  {
    hide *;
    QueuedMember(s, man, root, i);
    QueuedRows(s, man, root, m);
    QueuedCreate(s, man, root, m);
    var j := |m.chain|;
    ok, u := true, t;
    NoTail(m.chain);
    assert Gone(man, i + 1) + TailOps(m.chain, j) == Gone(man, i + 1);
    while j > 0
      invariant 0 <= j <= |m.chain|
      invariant ok && u == Marked(s, Gone(man, i + 1) + TailOps(m.chain, j))
    {
      j := j - 1;
      ghost var gone := Gone(man, i + 1) + TailOps(m.chain, j + 1);
      ghost var x := IndexOf(s, m.chain[j].op, |s.rows|);
      UpdateRowIs(s, x, m, j);
      ChainOpNotGone(man, i, j);
      MarkedIndex(s, gone, m.chain[j].op, |s.rows|);
      MarkedRow(s, gone, x);
      ok, u := RetireRow(u, m.chain[j].op, m.obj, Note, Update, Some(m.chain[j].hash));
      if !ok {
        return false, u;
      }
      MarkOne(s, gone, x);
      TailNext(m.chain, j);
      assert gone + {m.chain[j].op} == Gone(man, i + 1) + TailOps(m.chain, j);
    }
    ghost var gone := Gone(man, i + 1) + TailOps(m.chain, 0);
    ghost var x := IndexOf(s, m.oldOp, |s.rows|);
    CreateRowIs(s, x, m, Dependency(man, m));
    CreateNotGone(man, i);
    MarkedIndex(s, gone, m.oldOp, |s.rows|);
    MarkedRow(s, gone, x);
    ok, u := RetireRow(u, m.oldOp, m.obj, m.otype, Create, None);
    MarkOne(s, gone, x);
    WholeTail(m);
    GoneNext(man, i);
    assert gone + {m.oldOp} == Gone(man, i);
  }

  /** The new operations of the first n members. */
  ghost predicate NewOps(man: Manifest, n: nat, newOps: map<Uuid, Uuid>)
    requires n <= |man.members|
  {
    && (forall o :: o in newOps ==>
          exists k :: 0 <= k < n && man.members[k].obj == o && man.members[k].newOp == newOps[o])
    && (forall k :: 0 <= k < n ==> man.members[k].obj in newOps && newOps[man.members[k].obj] == man.members[k].newOp)
  }

  lemma NoNewOps(man: Manifest)
    ensures NewOps(man, 0, map[])
  {
  }

  lemma NextNewOp(man: Manifest, n: nat, newOps: map<Uuid, Uuid>)
    requires n < |man.members| && NewOps(man, n, newOps) && ObjsBefore(man, n)
    ensures NewOps(man, n + 1, newOps[man.members[n].obj := man.members[n].newOp])
  {
    var m := man.members[n];
    var next := newOps[m.obj := m.newOp];
    forall o | o in next
      ensures exists k :: 0 <= k < n + 1 && man.members[k].obj == o && man.members[k].newOp == next[o]
    {
      if o == m.obj {
        assert man.members[n].obj == o && man.members[n].newOp == next[o];
      } else {
        var k :| 0 <= k < n && man.members[k].obj == o && man.members[k].newOp == newOps[o];
        assert man.members[k].newOp == next[o];
      }
    }
  }

  /** The parent's new operation is known exactly if the parent comes earlier. */
  lemma ParentNewOp(man: Manifest, n: nat, newOps: map<Uuid, Uuid>)
    requires ManifestShape(man) && n < |man.members| && NewOps(man, n, newOps) && man.members[n].depth != 1
    ensures var m := man.members[n];
            (m.parent in newOps <==> Find(man.members, m.parent) < n)
                && (m.parent in newOps ==> newOps[m.parent] == NewDependency(man, m))
  {
    var m := man.members[n];
    hide *;
    var j := ParentOf(man, n);
    DependencyIs(man, m);
    NewOpOf(man, n, newOps, j);
    if m.parent in newOps {
      var k := NewOpFrom(man, n, newOps, m.parent);
      FindMember(man, k);
    }
  }

  lemma NewOpOf(man: Manifest, n: nat, newOps: map<Uuid, Uuid>, j: nat)
    requires n <= |man.members| && NewOps(man, n, newOps) && j < |man.members|
    ensures j < n ==> man.members[j].obj in newOps && newOps[man.members[j].obj] == man.members[j].newOp
  {
  }

  lemma NewOpFrom(man: Manifest, n: nat, newOps: map<Uuid, Uuid>, o: Uuid) returns (k: nat)
    requires n <= |man.members| && NewOps(man, n, newOps) && o in newOps
    ensures k < n && man.members[k].obj == o && man.members[k].newOp == newOps[o]
  {
    k :| 0 <= k < n && man.members[k].obj == o && man.members[k].newOp == newOps[o];
  }

  predicate ParentFirst(man: Manifest, i: nat)
    requires i < |man.members|
  {
    man.members[i].depth > 1 ==> Find(man.members, man.members[i].parent) < i
  }

  lemma ParentsFirstIs(man: Manifest)
    ensures ParentsFirst(man) <==> forall i :: 0 <= i < |man.members| ==> ParentFirst(man, i)
  {
    hide Find;
    if forall i :: 0 <= i < |man.members| ==> ParentFirst(man, i) {
      forall i | 0 <= i < |man.members| && man.members[i].depth > 1
        ensures Find(man.members, man.members[i].parent) < i
      {
        assert ParentFirst(man, i);
      }
    }
  }

  lemma ParentFirstIs(man: Manifest, i: nat)
    requires i < |man.members|
    ensures ParentFirst(man, i) <==> (man.members[i].depth > 1 ==> Find(man.members, man.members[i].parent) < i)
  {
  }

  lemma DirectReplacement(man: Manifest, recovered: Uuid, m: Member, parent: Uuid, dependency: Uuid)
    requires parent == (if m.depth == 1 then recovered else m.parent) && dependency == NewDependency(man, m)
    ensures Mutation(m.newOp, Create, m.obj, m.otype, 0, Some(parent), m.name,
                     if m.otype == Note then m.finalBlob else [], Some(dependency), [])
            == Replacement(man, recovered, m)
  {
    hide NewDependency;
  }

  /** One create per member, each below its old parent and waiting for its parent's new create; the direct ones below
      the new root. */
  method BuildReplacements(man: Manifest, recovered: Uuid, rootName: string) returns (ok: bool, ms: seq<Mutation>)
    requires ManifestShape(man)
    ensures ok <==> ParentsFirst(man)
    ensures ok ==> ms == Replacements(man, recovered, rootName, |man.members|)
  {
    hide *;
    ParentsFirstIs(man);
    ms := [RootCreate(man, recovered, rootName)];
    ReplacementsSplit(man, recovered, rootName, 0);
    var newOps: map<Uuid, Uuid> := map[];
    NoNewOps(man);
    for i := 0 to |man.members|
      invariant ms == Replacements(man, recovered, rootName, i)
      invariant NewOps(man, i, newOps)
      invariant forall j :: 0 <= j < i ==> ParentFirst(man, j)
    {
      var m := man.members[i];
      ShapeOf(man, i);
      DepthPositive(m);
      ParentFirstIs(man, i);
      DependencyIs(man, m);
      var parent, dependency := recovered, man.newRoot;
      if m.depth > 1 {
        ParentNewOp(man, i, newOps);
        parent := m.parent;
        if m.parent !in newOps {
          return false, ms;
        }
        dependency := newOps[m.parent];
      }
      DirectReplacement(man, recovered, m, parent, dependency);
      ReplacementsSplit(man, recovered, rootName, i + 1);
      ms := ms + [Mutation(m.newOp, Create, m.obj, m.otype, 0, Some(parent), m.name,
                           if m.otype == Note then m.finalBlob else [],
                           Some(dependency), [])];
      NextNewOp(man, i, newOps);
      newOps := newOps[m.obj := m.newOp];
    }
    ok := true;
  }

  /** Validates the manifest, retires everything it lists and builds its replacements; on any refusal the transaction is
      rolled back. */
  method Replace(s: State, man: Manifest, root: Uuid, recovered: Uuid, rootName: string)
    returns (ok: bool, t: State, ms: seq<Mutation>)
    requires WellFormed(s)
    ensures ok <==> TopologyOk(s, man, root) && ParentsFirst(man)
    ensures if ok then t == Retired(s, man) && ms == Replacements(man, recovered, rootName, |man.members|)
            else t == s && ms == []
  {
    hide *;
    t, ms := s, [];
    ok := ValidateTopology(s, man, root);
    if !ok {
      return false, s, [];
    }
    ShapeOfTopology(s, man, root);
    NoneGone(s, man);
    var i := |man.members|;
    while i > 0
      invariant 0 <= i <= |man.members| && t == Marked(s, Gone(man, i))
    {
      i := i - 1;
      ok, t := RetireMember(s, man, root, i, man.members[i], t);
      if !ok {
        return false, s, [];
      }
    }
    RetiredIs(s, man);
    ok, ms := BuildReplacements(man, recovered, rootName);
    if !ok {
      return false, s, [];
    }
  }
}
