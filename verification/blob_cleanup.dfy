/** Staged outgoing note bytes: which are still needed, and the cleanup that must never remove one that is. */
module BlobCleanup {
  import opened Ids
  import opened Naming
  import opened Optional
  import opened Outbox
  import opened OutboxBatch
  import opened OutboxRuns

  datatype Phase = Prepared | MovedAside | Completed

  /** A pending update of a note whose create waits below a refused folder create. */
  datatype ChainOp = ChainOp(op: Uuid, previous: Uuid, hash: Hash)

  datatype Member = Member(note: Uuid, oldOp: Uuid, newOp: Uuid, name: string, blob: Hash, createBlob: Hash,
                           chain: seq<ChainOp>)

  datatype FolderRecovery = FolderRecovery(source: Uuid, recovered: Uuid, rootOp: Uuid, name: string, phase: Phase,
                                           members: seq<Member>)

  /** A conflict copy of a note in progress. */
  datatype Copy = Copy(source: Hash, completed: bool)

  datatype Disk = Disk(db: State, copies: map<Uuid, Copy>, folders: map<Uuid, FolderRecovery>, cleaned: map<Hash, nat>,
                       files: set<Hash>)

  // ---------------------------------------------------------------- what is needed

  predicate CarriesBlob(m: Mutation) {
    m.otype == Note && (m.kind == Create || m.kind == Update)
  }

  predicate Active(status: Status) {
    Queued(status) || status == ReplayMismatch
  }

  predicate RowNeeds(d: Disk, i: nat) {
    i < |d.db.rows| && Active(d.db.rows[i].status) && CarriesBlob(d.db.rows[i].m)
  }

  predicate Unfinished(d: Disk, r: Uuid) {
    r in d.folders && d.folders[r].phase != Completed
  }

  predicate InChain(r: FolderRecovery, hash: Hash) {
    exists k, c :: 0 <= k < |r.members| && 0 <= c < |r.members[k].chain| && r.members[k].chain[c].hash == hash
  }

  /** The bytes the recovery will publish for a note: those of its last update, or of its create. */
  predicate FinalBlob(m: Member) {
    m.blob == (if m.chain == [] then m.createBlob else m.chain[|m.chain| - 1].hash)
  }

  ghost predicate FoldersOk(d: Disk) {
    forall r, k :: r in d.folders && 0 <= k < |d.folders[r].members| ==> FinalBlob(d.folders[r].members[k])
  }

  /** Every byte string some later step still has to read is there. */
  ghost predicate BlobsStaged(d: Disk) {
    && (forall i: nat :: RowNeeds(d, i) ==> d.db.rows[i].m.blob in d.files)
    && (forall r, hash :: Unfinished(d, r) && InChain(d.folders[r], hash) ==> hash in d.files)
    && (forall c :: c in d.copies && !d.copies[c].completed ==> d.copies[c].source in d.files)
  }

  ghost predicate BlobsSafe(d: Disk) {
    BlobsStaged(d) && FoldersOk(d)
  }

  // ---------------------------------------------------------------- outbox steps

  /** The changes that only take rows out of the active statuses, or append rows whose bytes are staged. */
  ghost predicate Covered(s: State, t: State, staged: set<Hash>) {
    forall i :: 0 <= i < |t.rows| && Active(t.rows[i].status) && CarriesBlob(t.rows[i].m) ==>
      (i < |s.rows| && s.rows[i].m == t.rows[i].m && Active(s.rows[i].status)) || t.rows[i].m.blob in staged
  }

  lemma CoveredSafe(d: Disk, t: State)
    requires BlobsSafe(d) && Covered(d.db, t, d.files)
    ensures BlobsSafe(d.(db := t))
  {
    CoveredStaged(d, t);
    hide BlobsStaged;
  }

  lemma CoveredStaged(d: Disk, t: State)
    requires BlobsStaged(d) && Covered(d.db, t, d.files)
    ensures BlobsStaged(d.(db := t))
  {
    var e := d.(db := t);
    forall i: nat | RowNeeds(e, i)
      ensures e.db.rows[i].m.blob in e.files
    {
      assert i < |d.db.rows| && Active(d.db.rows[i].status) && d.db.rows[i].m == t.rows[i].m ==> RowNeeds(d, i);
    }
  }

  predicate BatchStaged(ms: seq<Mutation>, files: set<Hash>) {
    forall k :: 0 <= k < |ms| && CarriesBlob(ms[k]) ==> ms[k].blob in files
  }

  lemma StepCovered(b: Batch, m: Mutation, s: State, staged: set<Hash>)
    requires b.Running? && Covered(s, b.s, staged) && (CarriesBlob(m) ==> m.blob in staged)
    requires EnqueueOne(b, m).Running?
    ensures Covered(s, EnqueueOne(b, m).s, staged)
  {
    if !Redundant(b.s, m) {
      StepIsAppend(b, m);
      hide EnqueueOne, Redundant, Coalesces;
    }
  }

  lemma {:induction false} BatchCovered(s: State, ms: seq<Mutation>, staged: set<Hash>)
    requires EnqueueAll(Running(s, {}), ms).Running? && BatchStaged(ms, staged)
    ensures Covered(s, EnqueueAll(Running(s, {}), ms).s, staged)
  {
    if ms != [] {
      var init := ms[..|ms| - 1];
      assert BatchStaged(init, staged);
      RunningPrefix(s, ms);
      BatchCovered(s, init, staged);
      StepCovered(EnqueueAll(Running(s, {}), init), ms[|ms| - 1], s, staged);
    }
  }

  // ---------------------------------------------------------------- folder recoveries

  /** An open operation depends on `op`. */
  predicate OpenDependent(s: State, op: Uuid) {
    exists i :: 0 <= i < |s.rows| && op in Deps(s.rows[i].m)
        && (Active(s.rows[i].status) || s.rows[i].status == Conflict)
  }

  function Dependents(s: State, op: Uuid): set<nat> {
    set i | 0 <= i < |s.rows| && op in Deps(s.rows[i].m)
  }

  /** A pending update of the note that waits only for the operation before it, which nothing else waits for. */
  predicate ChainRowOk(s: State, note: Uuid, c: ChainOp) {
    var i := IndexOf(s, c.op, |s.rows|);
    && i < |s.rows| && s.rows[i].m.obj == note && s.rows[i].m.kind == Update && s.rows[i].m.otype == Note
    && s.rows[i].status == Pending && s.rows[i].m.blob == c.hash && Deps(s.rows[i].m) == {c.previous}
    && Dependents(s, c.previous) == {i}
  }

  /** The create of a direct note of the refused folder, waiting for nothing but that folder. */
  predicate NoteRowOk(s: State, folderOp: Uuid, source: Uuid, m: Member) {
    var i := IndexOf(s, m.oldOp, |s.rows|);
    && i < |s.rows| && s.rows[i].m.obj == m.note && s.rows[i].m.kind == Create && s.rows[i].m.otype == Note
    && s.rows[i].status == Pending && s.rows[i].m.parent == Some(source) && s.rows[i].m.name == m.name
    && s.rows[i].m.blob == m.createBlob && Deps(s.rows[i].m) == {folderOp}
  }

  /** What the preparation and the insertion guards of its tables check of one note; the final bytes are checked by the
      guard alone. */
  predicate MemberOk(s: State, folderOp: Uuid, source: Uuid, m: Member) {
    && ValidObjectId(m.note) && ValidOperationId(m.oldOp) && ValidOperationId(m.newOp) && ValidComponent(m.name)
    && (forall c :: 0 <= c < |m.chain| ==>
          && m.chain[c].previous == (if c == 0 then m.oldOp else m.chain[c - 1].op)
          && ChainRowOk(s, m.note, m.chain[c]))
    && (m.chain != [] ==> Dependents(s, m.chain[|m.chain| - 1].op) == {})
    && NoteRowOk(s, folderOp, source, m) && FinalBlob(m)
  }

  function ChainOps(members: seq<Member>): set<Uuid> {
    if members == [] then {}
    else ChainOps(members[..|members| - 1]) + (set c | c in members[|members| - 1].chain :: c.op)
  }

  function OldOps(members: seq<Member>): set<Uuid> {
    set m | m in members :: m.oldOp
  }

  /** The refused folder create the recovery is for, with no later open operation on the folder. */
  predicate FolderRefused(s: State, folderOp: Uuid, source: Uuid) {
    var i := IndexOf(s, folderOp, |s.rows|);
    && i < |s.rows| && s.rows[i].m.obj == source && s.rows[i].m.kind == Create && s.rows[i].m.otype == Folder
    && s.rows[i].status == Conflict
    && forall j :: i < j < |s.rows| && s.rows[j].m.obj == source ==>
         !Active(s.rows[j].status) && s.rows[j].status != Conflict
  }

  /** The open operations that wait for the folder's create. */
  function OpenBelow(s: State, folderOp: Uuid): set<nat> {
    set i | 0 <= i < |s.rows| && folderOp in Deps(s.rows[i].m)
        && (Active(s.rows[i].status) || s.rows[i].status == Conflict)
  }

  predicate PutOk(d: Disk, folderOp: Uuid, r: FolderRecovery) {
    && folderOp !in d.folders && r.phase == Prepared && r.members != [] && r.source != r.recovered
    && (forall j, k :: 0 <= j < k < |r.members| ==> r.members[j].note != r.members[k].note)
    && (forall k :: 0 <= k < |r.members| ==> MemberOk(d.db, folderOp, r.source, r.members[k]))
    && FolderRefused(d.db, folderOp, r.source) && |OpenBelow(d.db, folderOp)| == |r.members|
  }

  /** Preparing a recovery retires the members' update chains at once, long before the notes are queued again. */
  function PutFolder(d: Disk, folderOp: Uuid, r: FolderRecovery): Disk {
    if PutOk(d, folderOp, r) then
      d.(db := Marked(d.db, ChainOps(r.members)), folders := d.folders[folderOp := r])
    else d
  }

  function MarkMoved(d: Disk, folderOp: Uuid): Disk {
    if Unfinished(d, folderOp) then d.(folders := d.folders[folderOp := d.folders[folderOp].(phase := MovedAside)])
    else d
  }

  /** The creates that replace the retired ones below the recovered folder. */
  function Replacements(r: FolderRecovery, n: nat): seq<Mutation>
    requires n <= |r.members|
  {
    if n == 0 then [Mutation(r.rootOp, Create, r.recovered, Folder, 0, Some(CONFLICT_RECOVERED), r.name, [], None, [])]
    else
      var m := r.members[n - 1];
      Replacements(r, n - 1) + [Mutation(m.newOp, Create, m.note, Note, 0, Some(r.recovered), m.name, m.blob,
                                         Some(r.rootOp), [])]
  }

  predicate CompletePossible(d: Disk, folderOp: Uuid) {
    && folderOp in d.folders && d.folders[folderOp].phase == MovedAside
    && forall k :: 0 <= k < |d.folders[folderOp].members| ==>
         var m := d.folders[folderOp].members[k];
         var i := IndexOf(d.db, m.oldOp, |d.db.rows|);
         && i < |d.db.rows| && d.db.rows[i].m.obj == m.note && d.db.rows[i].m.kind == Create
         && d.db.rows[i].m.otype == Note
         && d.db.rows[i].m.parent == Some(d.folders[folderOp].source) && d.db.rows[i].m.name == m.name
         && d.db.rows[i].m.blob == m.createBlob && d.db.rows[i].status == Pending && !OpenDependent(d.db, m.oldOp)
  }

  /** One transaction: retire the old creates, queue the new ones, and finish the recovery. */
  function CompleteFolder(d: Disk, folderOp: Uuid): Disk {
    if !CompletePossible(d, folderOp) then d
    else
      var r := d.folders[folderOp];
      var b := EnqueueAll(Running(Marked(d.db, OldOps(r.members)), {}), Replacements(r, |r.members|));
      if b.Running? then d.(db := b.s, folders := d.folders[folderOp := r.(phase := Completed)]) else d
  }

  /** Every note operation of the batch carries the bytes of one that is still open. */
  predicate CopiesOpen(s: State, ms: seq<Mutation>) {
    forall k :: 0 <= k < |ms| && CarriesBlob(ms[k]) ==> OpenBytes(s, ms[k].blob)
  }

  predicate OpenBytes(s: State, hash: Hash) {
    exists i :: 0 <= i < |s.rows| && Active(s.rows[i].status) && CarriesBlob(s.rows[i].m) && s.rows[i].m.blob == hash
  }

  /** One transaction of a recursive recovery: retire queued operations, and create objects with bytes of open ones. */
  function ReplaceQueued(d: Disk, gone: set<Uuid>, ms: seq<Mutation>): Disk {
    var b := EnqueueAll(Running(Marked(d.db, gone), {}), ms);
    if CopiesOpen(d.db, ms) && b.Running? then d.(db := b.s) else d
  }

  lemma ReplaceQueuedSafe(d: Disk, gone: set<Uuid>, ms: seq<Mutation>)
    requires BlobsSafe(d)
    ensures BlobsSafe(ReplaceQueued(d, gone, ms))
  {
    var b := EnqueueAll(Running(Marked(d.db, gone), {}), ms);
    if CopiesOpen(d.db, ms) && b.Running? {
      CopiesStaged(d, ms);
      BatchCovered(Marked(d.db, gone), ms, d.files);
      hide BlobsSafe, EnqueueAll, Marked, Covered;
      MarkedCovered(d.db, b.s, gone, d.files);
      CoveredSafe(d, b.s);
    }
  }

  lemma CopiesStaged(d: Disk, ms: seq<Mutation>)
    requires BlobsSafe(d) && CopiesOpen(d.db, ms)
    ensures BatchStaged(ms, d.files)
  {
    forall k | 0 <= k < |ms| && CarriesBlob(ms[k])
      ensures ms[k].blob in d.files
    {
      assert OpenBytes(d.db, ms[k].blob);
      var i :| 0 <= i < |d.db.rows| && Active(d.db.rows[i].status) && CarriesBlob(d.db.rows[i].m)
          && d.db.rows[i].m.blob == ms[k].blob;
      assert RowNeeds(d, i);
    }
  }

  // ---------------------------------------------------------------- conflict copies and staging

  function PutCopy(d: Disk, op: Uuid, source: Hash): Disk {
    var i := IndexOf(d.db, op, |d.db.rows|);
    if op !in d.copies && i < |d.db.rows| && d.db.rows[i].status == Conflict && source in d.files then
      d.(copies := d.copies[op := Copy(source, false)])
    else d
  }

  function FinishCopy(d: Disk, op: Uuid): Disk {
    if op in d.copies then d.(copies := d.copies[op := d.copies[op].(completed := true)]) else d
  }

  // ---------------------------------------------------------------- cleanup

  /** A finished operation that carried the bytes. */
  predicate Finished(d: Disk, i: nat, hash: Hash) {
    && i < |d.db.rows| && CarriesBlob(d.db.rows[i].m) && d.db.rows[i].m.blob == hash
    && (d.db.rows[i].status == Accepted || d.db.rows[i].status == Superseded
        || (d.db.rows[i].status == Conflict && d.db.rows[i].m.op in d.copies && d.copies[d.db.rows[i].m.op].completed))
  }

  /** The sequence number after the last finished operation with these bytes; 0 when there is none. */
  function FinishedThrough(d: Disk, hash: Hash, n: nat): nat {
    if n == 0 then 0 else if Finished(d, n - 1, hash) then n else FinishedThrough(d, hash, n - 1)
  }

  predicate InUse(d: Disk, hash: Hash) {
    || (exists i :: 0 <= i < |d.db.rows| && d.db.rows[i].m.blob == hash && Active(d.db.rows[i].status))
    || (exists c :: c in d.copies && d.copies[c].source == hash && !d.copies[c].completed)
    || (exists r :: r in d.folders && d.folders[r].phase != Completed && InChain(d.folders[r], hash))
  }

  function CleanedThrough(d: Disk, hash: Hash): nat {
    if hash in d.cleaned then d.cleaned[hash] else 0
  }

  /** What the cleanup query returns. */
  predicate Cleanable(d: Disk, hash: Hash) {
    !InUse(d, hash) && FinishedThrough(d, hash, |d.db.rows|) > CleanedThrough(d, hash)
  }

  lemma {:induction false} ThroughFinished(d: Disk, hash: Hash, n: nat, i: nat)
    requires i < n && Finished(d, i, hash)
    ensures FinishedThrough(d, hash, n) > i
  {
    if i < n - 1 && !Finished(d, n - 1, hash) {
      ThroughFinished(d, hash, n - 1, i);
    }
  }

  lemma {:induction false} ThroughIsFinished(d: Disk, hash: Hash, n: nat)
    requires FinishedThrough(d, hash, n) > 0
    ensures FinishedThrough(d, hash, n) <= n && Finished(d, FinishedThrough(d, hash, n) - 1, hash)
  {
    if !Finished(d, n - 1, hash) {
      ThroughIsFinished(d, hash, n - 1);
    }
  }

  /** Row i held these bytes and is done with them: accepted, superseded, or in a conflict whose copy is finished. */
  predicate Spent(d: Disk, i: nat, hash: Hash) {
    && i < |d.db.rows| && d.db.rows[i].m.otype == Note
    && (d.db.rows[i].m.kind == Create || d.db.rows[i].m.kind == Update)
    && d.db.rows[i].m.blob == hash
    && match d.db.rows[i].status
       case Accepted => true
       case Superseded => true
       case Conflict => d.db.rows[i].m.op in d.copies && d.copies[d.db.rows[i].m.op].completed
       case _ => false
  }

  /** Bytes may be removed exactly if nothing uses them and some row behind the last cleanup is done with them. */
  lemma CleanableIff(d: Disk, hash: Hash)
    ensures Cleanable(d, hash) <==>
            !InUse(d, hash) && exists i: nat :: CleanedThrough(d, hash) <= i < |d.db.rows| && Spent(d, i, hash)
  {
    var n := |d.db.rows|;
    if FinishedThrough(d, hash, n) > CleanedThrough(d, hash) {
      ThroughIsFinished(d, hash, n);
      assert Spent(d, FinishedThrough(d, hash, n) - 1, hash);
    }
    hide InUse;
    if i: nat :| CleanedThrough(d, hash) <= i < n && Spent(d, i, hash) {
      ThroughFinished(d, hash, n, i);
    }
  }

  /** Once an operation is accepted, its bytes may be removed, unless something else uses them. */
  lemma AcceptedCleanable(d: Disk, i: nat)
    requires i < |d.db.rows| && Queued(d.db.rows[i].status) && CarriesBlob(d.db.rows[i].m)
    requires CleanedThrough(d, d.db.rows[i].m.blob) <= i
    requires !InUse(d.(db := SetStatus(d.db, i, Accepted)), d.db.rows[i].m.blob)
    ensures !Cleanable(d, d.db.rows[i].m.blob)
    ensures Cleanable(d.(db := SetStatus(d.db, i, Accepted)), d.db.rows[i].m.blob)
  {
    var e, hash := d.(db := SetStatus(d.db, i, Accepted)), d.db.rows[i].m.blob;
    CleanableIff(e, hash);
    assert Spent(e, i, hash);
    assert d.db.rows[i].m.blob == hash && Active(d.db.rows[i].status);
  }

  function Hashes(d: Disk): set<Hash> {
    set i | 0 <= i < |d.db.rows| :: d.db.rows[i].m.blob
  }

  lemma {:induction false} ThroughIsHash(d: Disk, hash: Hash, n: nat)
    requires n <= |d.db.rows| && FinishedThrough(d, hash, n) > 0
    ensures hash in Hashes(d)
  {
    if !Finished(d, n - 1, hash) {
      ThroughIsHash(d, hash, n - 1);
    } else {
      assert d.db.rows[n - 1].m.blob == hash;
    }
  }

  function RemoveFile(d: Disk, hash: Hash): Disk {
    d.(files := d.files - {hash})
  }

  function MarkCleaned(d: Disk, hash: Hash): Disk {
    d.(cleaned := d.cleaned[hash := FinishedThrough(d, hash, |d.db.rows|)])
  }

  /** Removing what the query returned takes nothing that is needed. */
  lemma RemoveSafe(d: Disk, hash: Hash)
    requires BlobsSafe(d) && Cleanable(d, hash)
    ensures BlobsSafe(RemoveFile(d, hash)) && BlobsSafe(MarkCleaned(RemoveFile(d, hash), hash))
  {
    var e := RemoveFile(d, hash);
    assert forall i: nat :: RowNeeds(e, i) == RowNeeds(d, i);
    assert forall r :: Unfinished(e, r) == Unfinished(d, r);
  }

  lemma ChainHashStaged(d: Disk, folderOp: Uuid, r: FolderRecovery, k: nat, c: nat)
    requires BlobsSafe(d) && k < |r.members| && MemberOk(d.db, folderOp, r.source, r.members[k])
             && c < |r.members[k].chain|
    ensures r.members[k].chain[c].hash in d.files
  {
    assert ChainRowOk(d.db, r.members[k].note, r.members[k].chain[c]);
    var i := IndexOf(d.db, r.members[k].chain[c].op, |d.db.rows|);
    hide MemberOk, Dependents;
    assert RowNeeds(d, i);
  }

  lemma PutCovered(d: Disk, folderOp: Uuid, r: FolderRecovery)
    requires BlobsSafe(d) && PutOk(d, folderOp, r)
    ensures Covered(d.db, Marked(d.db, ChainOps(r.members)), d.files)
    ensures forall hash :: InChain(r, hash) ==> hash in d.files
  {
    hide BlobsSafe, MemberOk, ChainOps, FolderRefused;
    forall hash | InChain(r, hash)
      ensures hash in d.files
    {
      var k, c :| 0 <= k < |r.members| && 0 <= c < |r.members[k].chain| && r.members[k].chain[c].hash == hash;
      ChainHashStaged(d, folderOp, r, k, c);
    }
  }

  /** The chains stay protected by the recovery's own table once their operations are superseded. */
  lemma PutFolderSafe(d: Disk, folderOp: Uuid, r: FolderRecovery)
    requires BlobsSafe(d)
    ensures BlobsSafe(PutFolder(d, folderOp, r))
  {
    if PutOk(d, folderOp, r) {
      PutCovered(d, folderOp, r);
      CoveredSafe(d, Marked(d.db, ChainOps(r.members)));
      var e := PutFolder(d, folderOp, r);
      forall x, hash | Unfinished(e, x) && InChain(e.folders[x], hash)
        ensures hash in e.files
      {
        assert x != folderOp ==> Unfinished(d, x);
      }
      forall x, k | x in e.folders && 0 <= k < |e.folders[x].members|
        ensures FinalBlob(e.folders[x].members[k])
      {
        assert x != folderOp ==> FinalBlob(d.folders[x].members[k]);
      }
    }
  }

  lemma {:induction false} ReplacementsStaged(d: Disk, folderOp: Uuid, n: nat)
    requires BlobsSafe(d) && CompletePossible(d, folderOp) && n <= |d.folders[folderOp].members|
    ensures BatchStaged(Replacements(d.folders[folderOp], n), d.files)
  {
    if n > 0 {
      ReplacementsStaged(d, folderOp, n - 1);
      MemberStaged(d, folderOp, n - 1);
    }
  }

  lemma MemberStaged(d: Disk, folderOp: Uuid, k: nat)
    requires BlobsSafe(d) && CompletePossible(d, folderOp) && k < |d.folders[folderOp].members|
    ensures d.folders[folderOp].members[k].blob in d.files
  {
    var r := d.folders[folderOp];
    var m := r.members[k];
    assert FinalBlob(m);
    if m.chain == [] {
      assert RowNeeds(d, IndexOf(d.db, m.oldOp, |d.db.rows|));
    } else {
      assert m.chain[|m.chain| - 1].hash == m.blob;
      assert InChain(r, m.blob);
      assert Unfinished(d, folderOp);
    }
  }

  lemma MarkedCovered(s: State, t: State, ops: set<Uuid>, staged: set<Hash>)
    requires Covered(Marked(s, ops), t, staged)
    ensures Covered(s, t, staged)
  {
    var u := Marked(s, ops);
    forall i | 0 <= i < |t.rows| && Active(t.rows[i].status) && CarriesBlob(t.rows[i].m)
      ensures (i < |s.rows| && s.rows[i].m == t.rows[i].m && Active(s.rows[i].status)) || t.rows[i].m.blob in staged
    {
      assert i < |u.rows| && Active(u.rows[i].status) ==> u.rows[i] == s.rows[i];
    }
  }

  lemma CompleteFolderSafe(d: Disk, folderOp: Uuid)
    requires BlobsSafe(d)
    ensures BlobsSafe(CompleteFolder(d, folderOp))
  {
    if CompletePossible(d, folderOp) {
      var r := d.folders[folderOp];
      var u, ms := Marked(d.db, OldOps(r.members)), Replacements(r, |r.members|);
      var b := EnqueueAll(Running(u, {}), ms);
      if b.Running? {
        ReplacementsStaged(d, folderOp, |r.members|);
        CompleteStaged(d, folderOp);
        hide EnqueueAll, CompletePossible, Marked, Replacements, BlobsStaged;
        forall x, k | x in d.folders && 0 <= k < |d.folders[x].members|
          ensures FinalBlob(d.folders[x].members[k])
        {
        }
      }
    }
  }

  /** If the creates' bytes are staged, queueing them and finishing the recovery leaves nothing missing. */
  lemma CompleteStaged(d: Disk, folderOp: Uuid)
    requires BlobsStaged(d) && CompletePossible(d, folderOp)
    requires BatchStaged(Replacements(d.folders[folderOp], |d.folders[folderOp].members|), d.files)
    ensures BlobsStaged(CompleteFolder(d, folderOp))
  {
    var r := d.folders[folderOp];
    var u, ms := Marked(d.db, OldOps(r.members)), Replacements(r, |r.members|);
    var b := EnqueueAll(Running(u, {}), ms);
    if b.Running? {
      BatchCovered(u, ms, d.files);
      MarkedCovered(d.db, b.s, OldOps(r.members), d.files);
      CoveredStaged(d, b.s);
      hide EnqueueAll, CompletePossible, Marked, Replacements, Covered;
      FinishFolder(d.(db := b.s), folderOp);
    }
  }

  lemma FinishFolder(d: Disk, folderOp: Uuid)
    requires BlobsStaged(d) && folderOp in d.folders
    ensures BlobsStaged(d.(folders := d.folders[folderOp := d.folders[folderOp].(phase := Completed)]))
  {
    var e := d.(folders := d.folders[folderOp := d.folders[folderOp].(phase := Completed)]);
    assert forall i: nat :: RowNeeds(e, i) == RowNeeds(d, i);
    assert forall r :: Unfinished(e, r) ==> Unfinished(d, r) && e.folders[r] == d.folders[r];
  }

  lemma MarkMovedSafe(d: Disk, folderOp: Uuid)
    requires BlobsSafe(d)
    ensures BlobsSafe(MarkMoved(d, folderOp))
  {
    var e := MarkMoved(d, folderOp);
    assert forall i: nat :: RowNeeds(e, i) == RowNeeds(d, i);
    forall x, hash | Unfinished(e, x) && InChain(e.folders[x], hash)
      ensures hash in e.files
    {
      assert Unfinished(d, x);
      var k, c :| 0 <= k < |e.folders[x].members| && 0 <= c < |e.folders[x].members[k].chain|
          && e.folders[x].members[k].chain[c].hash == hash;
      assert d.folders[x].members[k].chain[c].hash == hash;
    }
    forall x, k | x in e.folders && 0 <= k < |e.folders[x].members|
      ensures FinalBlob(e.folders[x].members[k])
    {
      assert FinalBlob(d.folders[x].members[k]);
    }
  }

  // ---------------------------------------------------------------- runs

  datatype BlobStep =
    | Stage(hash: Hash)
    | QueueBatch(ms: seq<Mutation>)
    | Other(step: Step)
    | BeginCopy(op: Uuid, source: Hash)
    | EndCopy(op: Uuid)
    | PrepareFolder(op: Uuid, recovery: FolderRecovery)
    | MoveFolder(op: Uuid)
    | FinishRecovery(op: Uuid)
    | ReplaceTree(gone: set<Uuid>, ms: seq<Mutation>)
    | CleanUp(hashes: seq<Hash>, journalled: bool)

  /** A cleanup pass, cut off somewhere: after one query, files are removed and journalled one by one; the last one
      perhaps only removed. */
  function PassUpTo(d: Disk, hashes: seq<Hash>, journalled: bool): Disk {
    if hashes == [] then d
    else
      var removed := RemoveFile(PassUpTo(d, hashes[..|hashes| - 1], true), hashes[|hashes| - 1]);
      if journalled then MarkCleaned(removed, hashes[|hashes| - 1]) else removed
  }

  /** Some of what the query returns, each once. */
  predicate Listed(d: Disk, hashes: seq<Hash>) {
    && (forall k :: 0 <= k < |hashes| ==> Cleanable(d, hashes[k]))
    && (forall j, k :: 0 <= j < k < |hashes| ==> hashes[j] != hashes[k])
  }

  /** One step. Sync runs hold one lock, so nothing else comes between the query of a cleanup pass and its removals; a
      crash may. */
  function NextDisk(d: Disk, step: BlobStep): Disk {
    match step
    case Stage(hash) => d.(files := d.files + {hash})
    case QueueBatch(ms) => if BatchStaged(ms, d.files) then d.(db := Next(d.db, EnqueueBatch(ms))) else d
    case Other(other) => if other.EnqueueBatch? then d else d.(db := Next(d.db, other))
    case BeginCopy(op, source) => PutCopy(d, op, source)
    case EndCopy(op) => FinishCopy(d, op)
    case PrepareFolder(op, recovery) => PutFolder(d, op, recovery)
    case MoveFolder(op) => MarkMoved(d, op)
    case FinishRecovery(op) => CompleteFolder(d, op)
    case ReplaceTree(gone, ms) => ReplaceQueued(d, gone, ms)
    case CleanUp(hashes, journalled) => if Listed(d, hashes) then PassUpTo(d, hashes, journalled) else d
  }

  function RunDisk(d: Disk, steps: seq<BlobStep>): Disk {
    if steps == [] then d else NextDisk(RunDisk(d, steps[..|steps| - 1]), steps[|steps| - 1])
  }

  lemma OtherCovered(s: State, step: Step, staged: set<Hash>)
    requires !step.EnqueueBatch?
    ensures Covered(s, Next(s, step), staged)
  {
    hide Ready, Doomed, Recordable;
    match step {
      case SupersedeBehind(op) =>
      case AttemptOp(op) => AttemptRows(s, op);
      case ResultOf(op, answer) => RecordRows(s, op, answer);
      case MismatchOf(op) =>
    }
  }

  lemma AttemptRows(s: State, op: Uuid)
    ensures var i := IndexOf(s, op, |s.rows|);
            Attempt(s, op).rows == s.rows ||
            (i < |s.rows| && Queued(s.rows[i].status) && Attempt(s, op).rows == SetStatus(s, i, Attempted).rows)
  {
  }

  lemma RecordRows(s: State, op: Uuid, answer: Answer)
    ensures Record(s, op, answer).rows == s.rows ||
            (IndexOf(s, op, |s.rows|) < |s.rows| &&
             exists status :: !Active(status)
                 && Record(s, op, answer).rows == SetStatus(s, IndexOf(s, op, |s.rows|), status).rows)
  {
    if Recordable(s, op, answer) {
      var status := if answer == Rejected then Conflict else Accepted;
      assert !Active(status) && Record(s, op, answer).rows == SetStatus(s, IndexOf(s, op, |s.rows|), status).rows;
    }
  }

  lemma TableSafe(d: Disk, step: BlobStep)
    requires BlobsSafe(d) && (step.Stage? || step.BeginCopy? || step.EndCopy?)
    ensures BlobsSafe(NextDisk(d, step))
  {
    var e := NextDisk(d, step);
    hide FinishedThrough, InUse;
    assert forall i: nat :: RowNeeds(e, i) == RowNeeds(d, i);
    assert forall r :: Unfinished(e, r) == Unfinished(d, r);
  }

  lemma StepSafe(d: Disk, step: BlobStep)
    requires BlobsSafe(d)
    ensures BlobsSafe(NextDisk(d, step))
  {
    hide BlobsSafe, PutFolder, MarkMoved, CompleteFolder, ReplaceQueued, Listed, PassUpTo, PutCopy, FinishCopy,
         BatchStaged;
    match step {
      case Stage(hash) => TableSafe(d, step);
      case QueueBatch(ms) =>
        if BatchStaged(ms, d.files) && EnqueueAll(Running(d.db, {}), ms).Running? {
          BatchCovered(d.db, ms, d.files);
          CoveredSafe(d, EnqueueAll(Running(d.db, {}), ms).s);
        }
      case Other(other) =>
        if !other.EnqueueBatch? {
          OtherCovered(d.db, other, d.files);
          CoveredSafe(d, Next(d.db, other));
        }
      case BeginCopy(op, source) => TableSafe(d, step);
      case EndCopy(op) => TableSafe(d, step);
      case PrepareFolder(op, recovery) => PutFolderSafe(d, op, recovery);
      case MoveFolder(op) => MarkMovedSafe(d, op);
      case FinishRecovery(op) => CompleteFolderSafe(d, op);
      case ReplaceTree(gone, ms) => ReplaceQueuedSafe(d, gone, ms);
      case CleanUp(hashes, journalled) =>
        if Listed(d, hashes) {
          PassSafe(d, hashes, journalled);
        }
    }
  }

  // ---------------------------------------------------------------- the cleanup loop

  /** What the query returns, as a set. */
  function CleanableSet(d: Disk): set<Hash> {
    set hash | hash in Hashes(d) && Cleanable(d, hash)
  }

  lemma CleanableIs(d: Disk, hash: Hash)
    ensures hash in CleanableSet(d) <==> Cleanable(d, hash)
  {
    if Cleanable(d, hash) {
      ThroughIsHash(d, hash, |d.db.rows|);
    }
  }

  lemma {:induction false} FinishedSame(d: Disk, e: Disk, hash: Hash, n: nat)
    requires d.db == e.db && d.copies == e.copies
    ensures FinishedThrough(d, hash, n) == FinishedThrough(e, hash, n)
  {
    if n > 0 {
      FinishedSame(d, e, hash, n - 1);
    }
  }

  /** Cleaning one byte string settles it and leaves the verdict on the others. */
  lemma CleanOne(d: Disk, hash: Hash, other: Hash)
    requires Cleanable(d, hash)
    ensures Cleanable(MarkCleaned(RemoveFile(d, hash), hash), other) <==> other != hash && Cleanable(d, other)
  {
    var e := MarkCleaned(RemoveFile(d, hash), hash);
    FinishedSame(d, e, other, |d.db.rows|);
    FinishedSame(d, e, hash, |d.db.rows|);
    FinishedSame(d, RemoveFile(d, hash), hash, |d.db.rows|);
    assert InUse(d, other) == InUse(e, other);
  }

  /** Midway through the loop: what is left to clean, and which files went. */
  ghost predicate Cleaning(d: Disk, now: Disk, todo: set<Hash>) {
    && todo <= CleanableSet(d) && (forall hash :: hash in todo <==> Cleanable(now, hash))
    && now.files == d.files - (CleanableSet(d) - todo)
    && (BlobsSafe(d) ==> BlobsSafe(now))
  }

  lemma CleaningStarts(d: Disk)
    ensures Cleaning(d, d, CleanableSet(d))
  {
    forall hash
      ensures hash in CleanableSet(d) <==> Cleanable(d, hash)
    {
      CleanableIs(d, hash);
    }
  }

  lemma CleaningStep(d: Disk, now: Disk, todo: set<Hash>, hash: Hash, e: Disk)
    requires Cleaning(d, now, todo) && hash in todo && e == MarkCleaned(RemoveFile(now, hash), hash)
    ensures Cleaning(d, e, todo - {hash})
  {
    hide BlobsSafe, Cleanable, CleanableSet, FinishedThrough;
    if BlobsSafe(now) {
      RemoveSafe(now, hash);
    }
    forall other
      ensures other in todo - {hash} <==> Cleanable(e, other)
    {
      CleanOne(now, hash, other);
    }
  }

  // ---------------------------------------------------------------- a cleanup pass

  /** What was listed stays removable while other listed files go. */
  lemma {:induction false} StaysListed(d: Disk, hashes: seq<Hash>, hash: Hash)
    requires Listed(d, hashes) && Cleanable(d, hash) && hash !in hashes
    ensures Cleanable(PassUpTo(d, hashes, true), hash)
  {
    if hashes != [] {
      var init, last := hashes[..|hashes| - 1], hashes[|hashes| - 1];
      hide Cleanable, RemoveFile, MarkCleaned;
      assert last !in init && hash !in init && hash != last;
      StaysListed(d, init, hash);
      StaysListed(d, init, last);
      CleanOne(PassUpTo(d, init, true), last, hash);
    }
  }

  /** Wherever it is cut off, a pass that listed before it removed takes nothing that is needed. */
  lemma {:induction false} PassSafe(d: Disk, hashes: seq<Hash>, journalled: bool)
    requires BlobsSafe(d) && Listed(d, hashes)
    ensures BlobsSafe(PassUpTo(d, hashes, journalled))
  {
    if hashes != [] {
      var init, last := hashes[..|hashes| - 1], hashes[|hashes| - 1];
      hide BlobsSafe, Cleanable, RemoveFile, MarkCleaned;
      assert last !in init;
      PassSafe(d, init, true);
      StaysListed(d, init, last);
      RemoveSafe(PassUpTo(d, init, true), last);
    }
  }

  /** Cleanup never frees live bytes: whatever the order of the steps and wherever the client crashes, every queued note
      create or update and every chain of an unfinished recovery still finds its bytes staged. */
  lemma {:induction false} RunSafe(d: Disk, steps: seq<BlobStep>)
    requires BlobsSafe(d)
    ensures BlobsSafe(RunDisk(d, steps))
  {
    if steps != [] {
      RunSafe(d, steps[..|steps| - 1]);
      StepSafe(RunDisk(d, steps[..|steps| - 1]), steps[|steps| - 1]);
    }
  }

  class Stager {
    var db: State
    var copies: map<Uuid, Copy>
    var folders: map<Uuid, FolderRecovery>
    var cleaned: map<Hash, nat>
    var files: set<Hash>

    function View(): Disk
      reads this
    {
      Disk(db, copies, folders, cleaned, files)
    }

    /** Remove every staged file whose bytes no unfinished work needs, and journal each removal. */
    method Cleanup()
      modifies this`cleaned, this`files
      ensures forall hash :: !Cleanable(View(), hash)
      ensures files == old(files) - CleanableSet(old(View()))
      ensures old(BlobsSafe(View())) ==> BlobsSafe(View())
    {
      var todo := CleanableSet(View());
      ghost var d := View();
      CleaningStarts(d);
      while todo != {}
        invariant Cleaning(d, View(), todo)
      {
        hide *;
        ghost var now := View();
        var hash :| hash in todo;
        files := files - {hash};
        cleaned := cleaned[hash := FinishedThrough(View(), hash, |db.rows|)];
        CleanedView(now, hash, View());
        CleaningStep(d, now, todo, hash, View());
        todo := todo - {hash};
      }
      CleaningEnds(d, View());
    }
  }

  lemma CleaningEnds(d: Disk, now: Disk)
    requires Cleaning(d, now, {})
    ensures (forall hash :: !Cleanable(now, hash)) && now.files == d.files - CleanableSet(d)
            && (BlobsSafe(d) ==> BlobsSafe(now))
  {
  }

  lemma CleanedView(d: Disk, hash: Hash, e: Disk)
    requires e == Disk(d.db, d.copies, d.folders,
                       d.cleaned[hash := FinishedThrough(RemoveFile(d, hash), hash, |d.db.rows|)], d.files - {hash})
    ensures e == MarkCleaned(RemoveFile(d, hash), hash)
  {
  }
}
