/** Recovering a refused local folder with everything queued below it: manifest, checks and replacement operations. */
module RecursiveRecovery {
  import opened Ids
  import opened Naming
  import opened Optional
  import opened Outbox

  /** An update in a note's chain and the operation right before it. */
  datatype ChainOp = ChainOp(op: Uuid, previous: Uuid, hash: Hash)

  datatype Member = Member(
    obj: Uuid, parent: Uuid, oldOp: Uuid, newOp: Uuid, otype: ObjectType, name: string, relative: Path, depth: nat,
    device: nat, inode: nat, createBlob: Hash, finalBlob: Hash, chain: seq<ChainOp>)

  datatype Manifest = Manifest(operation: Uuid, newRoot: Uuid, members: seq<Member>)

  const MAX_RELATIVE_PATH_BYTES: nat := 768

  /** Bytes of the components and the separators between them. */
  function JoinedLength(path: Path): nat {
    if |path| <= 1 then (if path == [] then 0 else Utf8Length(path[0]))
    else JoinedLength(path[..|path| - 1]) + 1 + Utf8Length(path[|path| - 1])
  }

  /** A relative path the client accepts. */
  predicate ValidRelative(path: Path) {
    path != [] && JoinedLength(path) <= MAX_RELATIVE_PATH_BYTES
        && forall i :: 0 <= i < |path| ==> ValidComponent(path[i])
  }

  predicate MemberShape(m: Member) {
    && ValidObjectId(m.obj) && ValidObjectId(m.parent) && ValidOperationId(m.oldOp) && ValidOperationId(m.newOp)
    && m.oldOp != m.newOp
    && m.depth >= 1 && ValidComponent(m.name) && ValidRelative(m.relative) && m.relative[|m.relative| - 1] == m.name
    && (if m.otype == Folder then
          0 < m.device <= MAX_INT64 && 0 < m.inode <= MAX_INT64 && m.createBlob == [] && m.finalBlob == []
              && m.chain == []
        else m.device == 0 && m.inode == 0)
  }

  function ChainOps(chain: seq<ChainOp>): set<Uuid> {
    if chain == [] then {} else ChainOps(chain[..|chain| - 1]) + {chain[|chain| - 1].op}
  }

  function OpsOf(m: Member): set<Uuid> {
    {m.oldOp, m.newOp} + ChainOps(m.chain)
  }

  /** The operations named by the manifest itself and its first n members. */
  function SeenOps(man: Manifest, n: nat): set<Uuid>
    requires n <= |man.members|
  {
    if n == 0 then {man.operation, man.newRoot} else SeenOps(man, n - 1) + OpsOf(man.members[n - 1])
  }

  /** The member's operations are new to the set and different from each other. */
  predicate OpsNew(m: Member, seen: set<Uuid>) {
    && m.oldOp !in seen && m.newOp !in seen
    && forall k :: 0 <= k < |m.chain| ==> m.chain[k].op !in seen + {m.oldOp, m.newOp} + ChainOps(m.chain[..k])
  }

  predicate ObjsBefore(man: Manifest, i: nat)
    requires i < |man.members|
  {
    forall j :: 0 <= j < i ==> man.members[j].obj != man.members[i].obj
  }

  /** A direct member sits at the top; any other below a folder of the manifest one level up. */
  predicate Nested(man: Manifest, i: nat)
    requires i < |man.members|
  {
    var m := man.members[i];
    if m.depth == 1 then |m.relative| == 1
    else exists j :: 0 <= j < |man.members| && IsParent(man, j, i)
  }

  predicate IsParent(man: Manifest, j: nat, i: nat)
    requires i < |man.members| && j < |man.members|
  {
    var p, m := man.members[j], man.members[i];
    p.obj == m.parent && p.otype == Folder && p.depth + 1 == m.depth && m.relative != []
        && p.relative == m.relative[..|m.relative| - 1]
  }

  predicate ManifestShape(man: Manifest) {
    && (forall i :: 0 <= i < |man.members| ==>
          MemberShape(man.members[i]) && ObjsBefore(man, i) && OpsNew(man.members[i], SeenOps(man, i)))
    && (forall i :: 0 <= i < |man.members| ==> Nested(man, i))
  }

  // ---------------------------------------------------------------- the queued graph

  /** The operation before the k-th update of a note. */
  function Previous(m: Member, k: nat): Uuid
    requires k <= |m.chain|
  {
    if k == 0 then m.oldOp else m.chain[k - 1].op
  }

  function FinalOf(m: Member): Hash {
    if m.chain == [] then m.createBlob else m.chain[|m.chain| - 1].hash
  }

  /** Row i is the member's pending create and waits for `dependency` alone. */
  predicate CreateRow(s: State, i: nat, m: Member, dependency: Uuid) {
    && i < |s.rows| && s.rows[i].status == Pending
    && var c := s.rows[i].m;
       && c.op == m.oldOp && c.kind == Create && c.obj == m.obj && c.otype == m.otype && c.parent == Some(m.parent)
       && c.name == m.name
       && c.blob == (if m.otype == Folder then [] else m.createBlob) && Deps(c) == {dependency}
  }

  /** Row i is the k-th pending update of the member and waits for the operation before it alone. */
  predicate UpdateRow(s: State, i: nat, m: Member, k: nat)
    requires k < |m.chain|
  {
    && i < |s.rows| && s.rows[i].status == Pending
    && var c := s.rows[i].m;
       && c.op == m.chain[k].op && c.kind == Update && c.obj == m.obj && c.otype == Note && c.blob == m.chain[k].hash
       && Deps(c) == {Previous(m, k)}
  }

  /** The member whose object it is; |members| when there is none. */
  function Find(members: seq<Member>, obj: Uuid): (j: nat)
    ensures j <= |members| && (j < |members| ==> members[j].obj == obj)
    ensures j == |members| ==> forall k :: 0 <= k < |members| ==> members[k].obj != obj
  {
    if members == [] then 0
    else if members[0].obj == obj then 0
    else
      assert forall k :: 1 <= k < |members| ==> members[k] == members[1..][k - 1];
      Find(members[1..], obj) + 1
  }

  /** The operation a member's create waits for. */
  function Dependency(man: Manifest, m: Member): Uuid {
    if m.depth == 1 then man.operation
    else
      var j := Find(man.members, m.parent);
      if j < |man.members| then man.members[j].oldOp else NIL
  }

  function CountOf(s: State, obj: Uuid, n: nat): nat
    requires n <= |s.rows|
  {
    if n == 0 then 0 else CountOf(s, obj, n - 1) + (if s.rows[n - 1].m.obj == obj then 1 else 0)
  }

  predicate MemberQueued(s: State, man: Manifest, root: Uuid, m: Member) {
    && (m.depth == 1 ==> m.parent == root)
    && CreateRow(s, IndexOf(s, m.oldOp, |s.rows|), m, Dependency(man, m))
    && (forall k :: 0 <= k < |m.chain| ==> UpdateRow(s, IndexOf(s, m.chain[k].op, |s.rows|), m, k))
    && (m.otype == Note ==> FinalOf(m) == m.finalBlob)
    && CountOf(s, m.obj, |s.rows|) == 1 + |m.chain| && m.obj !in s.baselines
  }

  predicate OldOpOf(man: Manifest, op: Uuid) {
    exists k :: 0 <= k < |man.members| && (man.members[k].oldOp == op || op in ChainOps(man.members[k].chain))
  }

  /** Whatever waits for the refused folder, a member's create or an update is itself in the manifest. */
  predicate Complete(s: State, man: Manifest) {
    forall i, d :: 0 <= i < |s.rows| && d in Deps(s.rows[i].m) && (d == man.operation || OldOpOf(man, d)) ==>
      OldOpOf(man, s.rows[i].m.op)
  }

  predicate TopologyOk(s: State, man: Manifest, root: Uuid) {
    && ManifestShape(man)
    && (forall k :: 0 <= k < |man.members| ==> MemberQueued(s, man, root, man.members[k]))
    && Complete(s, man)
  }

  // ---------------------------------------------------------------- retiring and replacing

  function OldOpsOf(m: Member): set<Uuid> {
    ChainOps(m.chain) + {m.oldOp}
  }

  /** The operations of the members from the i-th on. */
  function Gone(man: Manifest, i: nat): set<Uuid>
    requires i <= |man.members|
    decreases |man.members| - i
  {
    if i == |man.members| then {} else Gone(man, i + 1) + OldOpsOf(man.members[i])
  }

  /** The outbox with every operation of the manifest superseded. */
  function Retired(s: State, man: Manifest): State {
    Marked(s, Gone(man, 0))
  }

  function NewParent(man: Manifest, recovered: Uuid, m: Member): Uuid {
    if m.depth == 1 then recovered else m.parent
  }

  function NewDependency(man: Manifest, m: Member): Uuid {
    if m.depth == 1 then man.newRoot
    else
      var j := Find(man.members, m.parent);
      if j < |man.members| then man.members[j].newOp else NIL
  }

  function Replacement(man: Manifest, recovered: Uuid, m: Member): Mutation {
    Mutation(m.newOp, Create, m.obj, m.otype, 0, Some(NewParent(man, recovered, m)), m.name,
             if m.otype == Note then m.finalBlob else [], Some(NewDependency(man, m)), [])
  }

  function RootCreate(man: Manifest, recovered: Uuid, rootName: string): Mutation {
    Mutation(man.newRoot, Create, recovered, Folder, 0, Some(CONFLICT_RECOVERED), rootName, [], None, [])
  }

  function Replacements(man: Manifest, recovered: Uuid, rootName: string, n: nat): seq<Mutation>
    requires n <= |man.members|
  {
    if n == 0 then [RootCreate(man, recovered, rootName)]
    else Replacements(man, recovered, rootName, n - 1) + [Replacement(man, recovered, man.members[n - 1])]
  }
}
