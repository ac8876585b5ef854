/** The outbox: immutable operations, their dependency graph and the revisions they project. */
module Outbox {
  import opened Ids
  import opened Naming
  import opened Optional

  datatype Kind = Create | Update | Move | Delete

  datatype ObjectType = Note | Folder

  datatype Status = Pending | Attempted | Accepted | Conflict | ReplayMismatch | Superseded

  datatype Mutation = Mutation(
    op: Uuid, kind: Kind, obj: Uuid, otype: ObjectType, base: nat, parent: Option<Uuid>, name: string, blob: Hash,
    dependency: Option<Uuid>, additional: seq<Uuid>)

  /** The dependency rows an operation gets. */
  function Deps(m: Mutation): set<Uuid> {
    (set d | d in m.additional) + (if m.dependency.Some? then {m.dependency.value} else {})
  }

  predicate ShapeOk(m: Mutation) {
    match m.kind
    case Create => m.base == 0 && m.name != "" && |m.blob| == (if m.otype == Note then HASH_SIZE else 0)
    case Update => m.base > 0 && m.otype == Note && m.parent == None && m.name == "" && |m.blob| == HASH_SIZE
    case Move => m.base > 0 && m.name != "" && m.blob == []
    case Delete => m.base > 0 && m.parent == None && m.name == "" && m.blob == []
  }

  /** The operation shape the client sends (folder inode bindings are not modelled). */
  predicate ValidMutation(m: Mutation) {
    && ValidOperationId(m.op) && ValidObjectId(m.obj)
    && (m.parent.Some? ==> ValidObjectId(m.parent.value))
    && (forall d :: d in Deps(m) ==> ValidOperationId(d) && d != m.op)
    && m.base <= MAX_INT64
    && ShapeOk(m)
    && ((m.kind == Create || m.kind == Move) ==> ValidComponent(m.name))
  }

  /** An outbox row; its sequence number is its index. */
  datatype Row = Row(m: Mutation, status: Status)

  /** A completed divergent-move recovery of a folder and the create operation it queued. */
  datatype Recovery = Recovery(newOp: Uuid, name: string, completed: bool)

  /** `met` holds the operations whose conflict was resolved in a way that satisfies their dependents. */
  datatype State = State(rows: seq<Row>, baselines: map<Uuid, nat>, met: set<Uuid>, recoveries: map<Uuid, Recovery>)

  const CONFLICT_RECOVERED: Uuid := 0x7a3e2b0e_6a3d_4c5f_8a61_9a0c8d47f002

  // ---------------------------------------------------------------- rows and dependencies

  predicate Queued(status: Status) {
    status == Pending || status == Attempted
  }

  predicate QueuedOf(s: State, o: Uuid, i: nat) {
    i < |s.rows| && s.rows[i].m.obj == o && Queued(s.rows[i].status)
  }

  /** Row i depends on row j. */
  predicate Dep(s: State, i: nat, j: nat) {
    j < i < |s.rows| && s.rows[j].m.op in Deps(s.rows[i].m)
  }

  /** A prerequisite in this state keeps its dependents waiting. */
  predicate Unmet(s: State, j: nat) {
    j < |s.rows| && s.rows[j].status != Accepted && s.rows[j].m.op !in s.met
  }

  predicate Ready(s: State, i: nat) {
    && i < |s.rows| && Queued(s.rows[i].status)
    && forall j :: 0 <= j < i && Dep(s, i, j) ==> !Unmet(s, j)
  }

  /** An operation that will never be accepted by itself. */
  predicate Stuck(s: State, j: nat) {
    Unmet(s, j) && (s.rows[j].status == Conflict || s.rows[j].status == ReplayMismatch)
  }

  predicate StuckOf(s: State, o: Uuid, j: nat) {
    Stuck(s, j) && s.rows[j].m.obj == o
  }

  predicate HasOp(s: State, n: nat, op: Uuid)
    requires n <= |s.rows|
  {
    exists j :: 0 <= j < n && s.rows[j].m.op == op
  }

  /** Operation ids are unique, dependencies exist and point backwards, and only conflicts are resolved. */
  ghost predicate WellFormed(s: State) {
    && (forall i, j :: 0 <= i < j < |s.rows| ==> s.rows[i].m.op != s.rows[j].m.op)
    && (forall i, d :: 0 <= i < |s.rows| && d in Deps(s.rows[i].m) ==> HasOp(s, i, d))
    && (forall i :: 0 <= i < |s.rows| && s.rows[i].m.op in s.met ==> s.rows[i].status == Conflict)
    && (forall op :: op in s.met ==> HasOp(s, |s.rows|, op))
  }

  /** Every queued operation has a valid shape; enqueueing checks it. */
  ghost predicate RowsValid(s: State) {
    forall i :: 0 <= i < |s.rows| ==> ValidMutation(s.rows[i].m)
  }

  /** Baselines are storable revisions, which start at 1. */
  ghost predicate BaselinesStorable(s: State) {
    forall o :: o in s.baselines ==> 0 < s.baselines[o] <= MAX_INT64
  }

  /** Identifiers drawn one after the other: valid, different, and new to the outbox. */
  ghost predicate FreshIds(s: State, mint: nat -> Uuid) {
    && (forall k :: ValidOperationId(mint(k)) && !HasOp(s, |s.rows|, mint(k)))
    && (forall j, k :: mint(j) == mint(k) ==> j == k)
  }

  ghost predicate DrawnBelow(gen: nat -> Uuid, op: Uuid, k: nat) {
    exists j: nat :: j < k && op == gen(j)
  }

  /** Row i waits, through unmet prerequisites, for a stuck operation of object o. */
  predicate Blocked(s: State, o: Uuid, i: nat)
    decreases i
  {
    exists j :: 0 <= j < i && Dep(s, i, j) && (StuckOf(s, o, j) || (Unmet(s, j) && Blocked(s, o, j)))
  }

  // ---------------------------------------------------------------- projection

  function Baseline(s: State, o: Uuid): nat {
    if o in s.baselines then s.baselines[o] else 0
  }

  /** The number of queued rows of o among the first n. */
  function Count(s: State, o: Uuid, n: nat): nat {
    if n == 0 then 0 else Count(s, o, n - 1) + (if QueuedOf(s, o, n - 1) then 1 else 0)
  }

  /** The operation id of the last queued row of o among the first n. */
  function LastQueued(s: State, o: Uuid, n: nat): Option<Uuid>
    requires n <= |s.rows|
  {
    if n == 0 then None
    else if QueuedOf(s, o, n - 1) then Some(s.rows[n - 1].m.op)
    else LastQueued(s, o, n - 1)
  }

  function Projected(s: State, o: Uuid): nat {
    Baseline(s, o) + Count(s, o, |s.rows|)
  }

  /** The projection does not run past the largest storable revision. */
  predicate ProjectionOk(s: State, o: Uuid) {
    Projected(s, o) <= MAX_INT64 || Count(s, o, |s.rows|) == 0
  }

  predicate Durable(s: State, o: Uuid) {
    o in s.baselines || Count(s, o, |s.rows|) > 0
  }

  // ---------------------------------------------------------------- the invariant

  /** Queued row j of o comes immediately before queued row i. */
  predicate Before(s: State, o: Uuid, j: nat, i: nat) {
    j < i && QueuedOf(s, o, j) && Count(s, o, j) + 1 == Count(s, o, i)
  }

  /** A queued row fits the chain: its base is the revision its predecessor will reach, and it waits for it. */
  ghost predicate Linked(s: State, o: Uuid, i: nat) {
    i < |s.rows|
    && s.rows[i].m.base == Baseline(s, o) + Count(s, o, i)
    && (forall j :: 0 <= j < i && Before(s, o, j, i) ==> Dep(s, i, j))
  }

  /** Queued rows that wait for no conflict of the object form one chain from its baseline. */
  ghost predicate Chain(s: State, o: Uuid) {
    forall i :: 0 <= i < |s.rows| && QueuedOf(s, o, i) && !Blocked(s, o, i) ==> Linked(s, o, i)
  }

  /** Once a queued row of o is blocked, so is every later one. */
  ghost predicate BlockedLast(s: State, o: Uuid) {
    forall j, i :: 0 <= j < i < |s.rows| && QueuedOf(s, o, j) && QueuedOf(s, o, i) && Blocked(s, o, j) ==>
      Blocked(s, o, i)
  }

  predicate Referenced(s: State, j: nat) {
    exists i :: j < i < |s.rows| && Dep(s, i, j)
  }

  /** Every queued row but the last has a dependent, which keeps coalescing away from it. */
  ghost predicate Held(s: State, o: Uuid) {
    forall j :: 0 <= j < |s.rows| && QueuedOf(s, o, j) && Count(s, o, j) + 1 < Count(s, o, |s.rows|) ==>
      Referenced(s, j)
  }

  ghost predicate ObjectOk(s: State, o: Uuid) {
    Chain(s, o) && BlockedLast(s, o) && Held(s, o)
  }

  ghost predicate Invariant(s: State) {
    WellFormed(s) && forall o :: ObjectOk(s, o)
  }

  // ---------------------------------------------------------------- transitions

  function SetStatus(s: State, i: nat, status: Status): State
    requires i < |s.rows|
  {
    s.(rows := s.rows[i := s.rows[i].(status := status)])
  }

  /** The rows a new operation m supersedes: pending, unreferenced, of its object, and not its own prerequisite. */
  predicate Coalesces(s: State, m: Mutation, j: nat) {
    && j < |s.rows| && s.rows[j].m.obj == m.obj && s.rows[j].status == Pending
    && !Referenced(s, j) && s.rows[j].m.op !in Deps(m)
  }

  function Coalesced(s: State, m: Mutation): State {
    s.(rows := seq(|s.rows|, j requires 0 <= j < |s.rows| =>
      if Coalesces(s, m, j) then s.rows[j].(status := Superseded) else s.rows[j]))
  }

  /** The outbox with the given operations superseded. */
  function Marked(s: State, gone: set<Uuid>): State {
    s.(rows := seq(|s.rows|, i requires 0 <= i < |s.rows| =>
      if s.rows[i].m.op in gone then s.rows[i].(status := Superseded) else s.rows[i]))
  }

  /** The pending operations of an object superseded. */
  function Cancelled(s: State, id: Uuid): State {
    s.(rows := seq(|s.rows|, i requires 0 <= i < |s.rows| =>
      if s.rows[i].m.obj == id && s.rows[i].status == Pending then s.rows[i].(status := Superseded) else s.rows[i]))
  }

  /** A folder move into the recovered-conflicts folder is dropped when the recovery already queued its create. */
  predicate Redundant(s: State, m: Mutation) {
    && m.kind == Move && m.otype == Folder && m.parent == Some(CONFLICT_RECOVERED) && m.base == 1
    && m.obj in s.recoveries
    && var r := s.recoveries[m.obj];
    && r.completed && r.name == m.name && r.newOp in Deps(m)
    && exists j :: 0 <= j < |s.rows| && s.rows[j].m.op == r.newOp && s.rows[j].m.obj == m.obj
        && s.rows[j].m.kind == Create
              && s.rows[j].status in {Pending, Attempted, Accepted}
  }

  predicate CreateAllowed(s: State, o: Uuid) {
    && o !in s.baselines
    && forall j :: 0 <= j < |s.rows| && s.rows[j].m.obj == o ==>
         s.rows[j].status != Attempted && (s.rows[j].status == Pending ==> !Referenced(s, j))
  }

  predicate FollowsProjection(s: State, m: Mutation) {
    && Durable(s, m.obj) && Projected(s, m.obj) == m.base
    && var last := LastQueued(s, m.obj, |s.rows|);
       (last.Some? ==> last.value in Deps(m))
  }

  /** The row may be inserted: a new operation id, and dependencies that exist. */
  predicate Insertable(s: State, m: Mutation) {
    !HasOp(s, |s.rows|, m.op) && forall d :: d in Deps(m) ==> HasOp(s, |s.rows|, d)
  }

  predicate Admitted(s: State, m: Mutation) {
    && ValidMutation(m) && ProjectionOk(s, m.obj)
    && (if m.kind == Create then CreateAllowed(s, m.obj) else FollowsProjection(s, m))
    && Insertable(s, m)
  }

  function Appended(s: State, m: Mutation): State {
    s.(rows := s.rows + [Row(m, Pending)])
  }

  /** A batch in progress: the state so far and the objects whose queue was already coalesced. */
  datatype Batch = Failed | Running(s: State, coalesced: set<Uuid>)

  function EnqueueOne(b: Batch, m: Mutation): Batch {
    if b == Failed then Failed
    else if !ValidMutation(m) then Failed
    else if Redundant(b.s, m) then b
    else if !Admitted(b.s, m) then Failed
    else if m.obj in b.coalesced then Running(Appended(b.s, m), b.coalesced)
    else Running(Appended(Coalesced(b.s, m), m), b.coalesced + {m.obj})
  }

  function EnqueueAll(b: Batch, ms: seq<Mutation>): Batch {
    if ms == [] then b else EnqueueOne(EnqueueAll(b, ms[..|ms| - 1]), ms[|ms| - 1])
  }

  /** Row i depends, directly or not, on operation c. */
  predicate Doomed(s: State, c: Uuid, i: nat)
    decreases i
  {
    exists j :: 0 <= j < i && Dep(s, i, j) && (s.rows[j].m.op == c || Doomed(s, c, j))
  }

  function SupersedeDependents(s: State, c: Uuid): State {
    s.(rows := seq(|s.rows|, i requires 0 <= i < |s.rows| =>
      if Doomed(s, c, i) && Queued(s.rows[i].status) then s.rows[i].(status := Superseded) else s.rows[i]))
  }

  /** The row of operation op; |rows| when there is none. */
  function IndexOf(s: State, op: Uuid, n: nat): (i: nat)
    requires n <= |s.rows|
    ensures i < n ==> s.rows[i].m.op == op
    ensures i >= n ==> i == |s.rows| && !HasOp(s, n, op)
  {
    if n == 0 then |s.rows| else if s.rows[n - 1].m.op == op then n - 1 else IndexOf(s, op, n - 1)
  }

  /** A server answer to a submitted operation. */
  datatype Answer = AcceptedAt(revision: nat) | Rejected

  /** Recording an accepted result; the state is unchanged where the code reports an error. */
  function RecordAccepted(s: State, i: nat, revision: nat): State
    requires i < |s.rows|
  {
    var o := s.rows[i].m.obj;
    var t := SetStatus(s, i, Accepted);
    if o !in s.baselines || s.baselines[o] < revision then t.(baselines := s.baselines[o := revision]) else t
  }

  /** The answer may be recorded: the operation is still queued, and an acceptance fits its base and its
      prerequisites. */
  predicate Recordable(s: State, op: Uuid, answer: Answer) {
    var i := IndexOf(s, op, |s.rows|);
    && i < |s.rows| && Queued(s.rows[i].status)
    && (answer.AcceptedAt? ==> Ready(s, i) && answer.revision == s.rows[i].m.base + 1 && answer.revision <= MAX_INT64)
  }

  function Record(s: State, op: Uuid, answer: Answer): State {
    var i := IndexOf(s, op, |s.rows|);
    if !Recordable(s, op, answer) then s
    else match answer
      case Rejected => SetStatus(s, i, Conflict)
      case AcceptedAt(revision) => RecordAccepted(s, i, revision)
  }

  function Attempt(s: State, op: Uuid): State {
    var i := IndexOf(s, op, |s.rows|);
    if i < |s.rows| && Ready(s, i) then SetStatus(s, i, Attempted) else s
  }

  function Mismatch(s: State, op: Uuid): State {
    var i := IndexOf(s, op, |s.rows|);
    if i < |s.rows| && Queued(s.rows[i].status) then SetStatus(s, i, ReplayMismatch) else s
  }
}
