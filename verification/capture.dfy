/** Turning the difference between two scans of the vault into queued operations: the data and the decisions. */
module Capture {
  import opened Ids
  import opened Naming
  import opened Optional
  import opened Outbox

  datatype Identity = IdentityKnown | IdentityNew | IdentityPending

  /** A file or folder as the index records it; a parent of NIL is the vault root. */
  datatype Observed = Observed(
    id: Uuid, otype: ObjectType, path: Path, parent: Uuid, hash: Hash, device: nat, inode: nat, state: Identity)

  /** The base name; that of the empty path is ".". */
  function NameOf(o: Observed): string {
    if o.path == [] then "." else o.path[|o.path| - 1]
  }

  predicate SameObserved(a: Observed, b: Observed) {
    a.otype == b.otype && a.path == b.path && a.parent == b.parent && a.hash == b.hash
  }

  /** What was just written by applying remote operations, and must not be captured as a local change. */
  datatype Options = Options(
    appliedFolders: set<Uuid>, appliedFolderPaths: map<Uuid, Path>, trustedFolders: map<Path, Uuid>,
    appliedNotes: map<Uuid, Hash>,
    appliedNotePaths: map<Uuid, Path>, appliedDeletes: set<Uuid>)

  /** Everything the derivation reads. `old` and `current` hold the objects of the two snapshots whose identity is
      settled, `waiting` the earlier ones whose identity was pending, `pending` the current ones. Staging a note's bytes
      fails for `oversize` notes in a way that skips them, and for `unreadable` ones in a way that fails the capture. */
  datatype Scan = Scan(
    s: State, earlier: map<Uuid, Observed>, waiting: map<Uuid, Observed>, current: map<Uuid, Observed>,
    pending: set<Uuid>, options: Options,
    oversize: set<Uuid>, unreadable: set<Uuid>)

  predicate PathFits(paths: map<Uuid, Path>, o: Observed) {
    o.id !in paths || paths[o.id] == [] || paths[o.id] == o.path
  }

  predicate RemotelyApplied(x: Options, o: Observed) {
    || (o.id in x.appliedFolders && o.otype == Folder && PathFits(x.appliedFolderPaths, o))
    || (o.path in x.trustedFolders && x.trustedFolders[o.path] == o.id && o.otype == Folder)
    || (o.id in x.appliedNotes && o.hash == x.appliedNotes[o.id] && PathFits(x.appliedNotePaths, o))
  }

  predicate StillWaiting(e: Scan, o: Observed) {
    o.id in e.waiting && SameObserved(e.waiting[o.id], o) && e.waiting[o.id].device == o.device
        && e.waiting[o.id].inode == o.inode
  }

  /** What becomes of a current object: nothing, a create, or operations on top of what the server knows or will
      know. */
  datatype Fate = Ignore | MakeNew | Follow

  predicate Considered(e: Scan, o: Observed) {
    !RemotelyApplied(e.options, o) && !StillWaiting(e, o)
  }

  function FateOf(e: Scan, o: Observed): Fate {
    if !Considered(e, o) then Ignore
    else if Durable(e.s, o.id) then Follow
    else if o.id !in e.earlier || !SameObserved(e.earlier[o.id], o) then MakeNew
    else Ignore
  }

  predicate Gone(e: Scan, id: Uuid) {
    id in e.earlier && id !in e.current && id !in e.pending && id !in e.options.appliedDeletes
  }

  predicate Removed(e: Scan, id: Uuid) {
    Gone(e, id) && Durable(e.s, id)
  }

  /** The object as the previous snapshot had it; the zero object when it did not. */
  function Earlier(e: Scan, id: Uuid): Observed {
    if id in e.earlier then e.earlier[id] else Observed(NIL, Note, [], NIL, [], 0, 0, IdentityNew)
  }

  predicate Moved(e: Scan, o: Observed) {
    Earlier(e, o.id).parent != o.parent || NameOf(Earlier(e, o.id)) != NameOf(o)
  }

  predicate Changed(e: Scan, o: Observed) {
    o.otype == Note && Earlier(e, o.id).hash != o.hash
  }

  function ParentOf(o: Observed): Option<Uuid> {
    if o.parent == NIL then None else Some(o.parent)
  }

  function CreateOp(o: Observed, op: Uuid, dependency: Option<Uuid>): Mutation {
    Mutation(op, Create, o.id, o.otype, 0, ParentOf(o), NameOf(o), o.hash, dependency, [])
  }

  function MoveOp(o: Observed, op: Uuid, base: nat, dependency: Option<Uuid>, additional: seq<Uuid>): Mutation {
    Mutation(op, Move, o.id, o.otype, base, ParentOf(o), NameOf(o), [], dependency, additional)
  }

  function UpdateOp(o: Observed, op: Uuid, base: nat, dependency: Option<Uuid>): Mutation {
    Mutation(op, Update, o.id, Note, base, None, "", o.hash, dependency, [])
  }

  function DeleteOp(o: Observed, op: Uuid, base: nat, dependency: Option<Uuid>, additional: seq<Uuid>): Mutation {
    Mutation(op, Delete, o.id, o.otype, base, None, "", [], dependency, additional)
  }

  // ---------------------------------------------------------------- what a scan promises

  predicate ObservedOk(o: Observed) {
    && ValidObjectId(o.id) && (o.parent != NIL ==> ValidObjectId(o.parent)) && o.path != [] && ValidComponent(NameOf(o))
    && |o.hash| == (if o.otype == Note then HASH_SIZE else 0)
  }

  ghost predicate ScanOk(e: Scan) {
    && (forall id :: id in e.current ==> e.current[id].id == id && ObservedOk(e.current[id]))
    && (forall id :: id in e.earlier ==> e.earlier[id].id == id && ObservedOk(e.earlier[id]))
    && (forall id :: id in e.oversize && id in e.current ==> e.current[id].otype == Note)
  }

  ghost predicate StoreOk(s: State) {
    Invariant(s) && RowsValid(s) && BaselinesStorable(s)
  }
}
