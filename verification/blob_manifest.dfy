/** Where the manifests come from that keep staged bytes safe: the notes queued directly below a refused folder, with
    their updates. */
module BlobManifest {
  import opened Ids
  import opened Naming
  import opened Optional
  import opened Outbox
  import opened OutboxProgress
  import opened OutboxReplace
  import opened BlobCleanup

  // ---------------------------------------------------------------- completing a recovery

  lemma CompleteIs(d: Disk, folderOp: Uuid)
    requires CompletePossible(d, folderOp)
    ensures var r := d.folders[folderOp];
            var b := EnqueueAll(Running(Marked(d.db, OldOps(r.members)), {}), Replacements(r, |r.members|));
            b.Running? ==> CompleteFolder(d, folderOp)
                           == d.(db := b.s, folders := d.folders[folderOp := r.(phase := Completed)])
  {
    hide EnqueueAll, Marked, Replacements, OldOps;
  }

  /** A create in a batch whose bytes are not staged. */
  lemma UnstagedRow(e: Disk, u: State, ms: seq<Mutation>, b: Batch)
    requires Replaced(u, ms, b) && e.db == b.s && !BatchStaged(ms, e.files)
    ensures !BlobsStaged(e)
  {
    var k :| 0 <= k < |ms| && CarriesBlob(ms[k]) && ms[k].blob !in e.files;
    NewRows(u, ms, b);
    hide Replaced;
    assert b.s.rows[|u.rows| + k] == Row(ms[k], Pending) && RowNeeds(e, |u.rows| + k);
  }

  /** A completed recovery leaves a needed byte string missing exactly when a note's final bytes were never staged. */
  lemma CompleteSafeIff(d: Disk, folderOp: Uuid)
    requires BlobsStaged(d) && CompletePossible(d, folderOp)
    requires var r := d.folders[folderOp];
             var u := Marked(d.db, OldOps(r.members));
             && WellFormed(u) && Creates(Replacements(r, |r.members|))
             && EnqueueAll(Running(u, {}), Replacements(r, |r.members|)).Running?
    ensures BlobsStaged(CompleteFolder(d, folderOp))
            <==> BatchStaged(Replacements(d.folders[folderOp], |d.folders[folderOp].members|), d.files)
  {
    var r, e := d.folders[folderOp], CompleteFolder(d, folderOp);
    var u, ms := Marked(d.db, OldOps(r.members)), Replacements(r, |r.members|);
    var b := EnqueueAll(Running(u, {}), ms);
    hide *;
    ReplaceAll(u, ms);
    CompleteIs(d, folderOp);
    if BatchStaged(ms, d.files) {
      CompleteStaged(d, folderOp);
    } else {
      UnstagedRow(e, u, ms, b);
    }
  }

  // ---------------------------------------------------------------- collecting the notes

  /** A note as far as its updates were followed: everything about it is as the preparation asks, save that nothing
      waits for its last operation. */
  ghost predicate Followed(s: State, folderOp: Uuid, source: Uuid, m: Member) {
    && ValidObjectId(m.note) && ValidOperationId(m.oldOp) && ValidOperationId(m.newOp) && ValidComponent(m.name)
    && (forall c :: 0 <= c < |m.chain| ==> ChainLink(s, m, c))
    && NoteRowOk(s, folderOp, source, m) && FinalBlob(m)
  }

  ghost predicate ChainLink(s: State, m: Member, c: nat)
    requires c < |m.chain|
  {
    m.chain[c].previous == (if c == 0 then m.oldOp else m.chain[c - 1].op) && ChainRowOk(s, m.note, m.chain[c])
  }

  function LastOp(m: Member): Uuid {
    if m.chain == [] then m.oldOp else m.chain[|m.chain| - 1].op
  }

  lemma FollowedWhole(s: State, folderOp: Uuid, source: Uuid, m: Member)
    requires Followed(s, folderOp, source, m) && Dependents(s, LastOp(m)) == {}
    ensures MemberOk(s, folderOp, source, m)
  {
    forall c | 0 <= c < |m.chain|
      ensures m.chain[c].previous == (if c == 0 then m.oldOp else m.chain[c - 1].op)
              && ChainRowOk(s, m.note, m.chain[c])
    {
      assert ChainLink(s, m, c);
    }
  }

  lemma FollowedNext(s: State, folderOp: Uuid, source: Uuid, m: Member, x: nat)
    requires WellFormed(s) && Followed(s, folderOp, source, m) && x < |s.rows| && Dependents(s, LastOp(m)) == {x}
    requires var c := s.rows[x].m;
             c.obj == m.note && c.kind == Update && c.otype == Note && s.rows[x].status == Pending
                 && Deps(c) == {LastOp(m)}
    ensures var c := s.rows[x].m;
            Followed(s, folderOp, source, m.(chain := m.chain + [ChainOp(c.op, LastOp(m), c.blob)], blob := c.blob))
  {
    var c := s.rows[x].m;
    var n := m.(chain := m.chain + [ChainOp(c.op, LastOp(m), c.blob)], blob := c.blob);
    IndexIs(s, x, |s.rows|);
    hide ValidObjectId, ValidOperationId, ValidComponent, WellFormed, IndexOf, Deps, Dependents;
    forall k | 0 <= k < |n.chain|
      ensures ChainLink(s, n, k)
    {
      assert k < |m.chain| ==> ChainLink(s, m, k);
    }
    assert NoteRowOk(s, folderOp, source, n);
  }

  lemma RowIsValid(s: State, i: nat)
    requires RowsValid(s) && i < |s.rows|
    ensures var c := s.rows[i].m;
            && ValidObjectId(c.obj) && ValidOperationId(c.op) && (c.kind == Create ==> ValidComponent(c.name))
            && (c.otype == Note && c.kind in {Create, Update} ==> |c.blob| == HASH_SIZE)
  {
    assert ValidMutation(s.rows[i].m);
    hide ValidObjectId, ValidOperationId, ValidComponent;
  }

  lemma LaterDependent(s: State, p: nat, x: nat)
    requires WellFormed(s) && p < |s.rows| && x in Dependents(s, s.rows[p].m.op)
    ensures p < x < |s.rows|
  {
    assert HasOp(s, x, s.rows[p].m.op);
    var j :| 0 <= j < x && s.rows[j].m.op == s.rows[p].m.op;
  }

  /** Row x is the pending update that goes on from the note's last operation. */
  predicate GoesOn(s: State, m: Member, x: nat) {
    && x < |s.rows| && s.rows[x].status == Pending
    && var c := s.rows[x].m;
       c.obj == m.note && c.kind == Update && c.otype == Note && Deps(c) == {LastOp(m)} && |c.blob| == HASH_SIZE
  }

  /** Something waits for the note's last operation, and it is not one update that goes on from it. */
  ghost predicate Broken(s: State, m: Member) {
    Dependents(s, LastOp(m)) != {} && forall x :: Dependents(s, LastOp(m)) == {x} ==> !GoesOn(s, m, x)
  }

  /** Follows a note's updates to the last one; fails if the history branches or goes on with anything but a pending
      update. */
  method FollowUpdates(s: State, ghost folderOp: Uuid, ghost source: Uuid, start: Member, i: nat)
    returns (ok: bool, m: Member)
    requires WellFormed(s) && RowsValid(s) && i < |s.rows| && start.oldOp == s.rows[i].m.op && start.chain == []
    requires Followed(s, folderOp, source, start)
    ensures ok ==> MemberOk(s, folderOp, source, m)
    ensures m.oldOp == start.oldOp && m.note == start.note && m.newOp == start.newOp
    ensures !ok ==> Followed(s, folderOp, source, m) && Broken(s, m)
  {
    m := start;
    var p := i;
    while true
      invariant Followed(s, folderOp, source, m) && p < |s.rows| && s.rows[p].m.op == LastOp(m)
      invariant m.oldOp == start.oldOp && m.note == start.note && m.newOp == start.newOp
      decreases |s.rows| - p
    {
      hide WellFormed, RowsValid, Followed, Dependents, Deps, MemberOk, FinalBlob;
      var children := Dependents(s, LastOp(m));
      if children == {} {
        FollowedWhole(s, folderOp, source, m);
        return true, m;
      }
      var x :| x in children;
      if children != {x} {
        return false, m;
      }
      LaterDependent(s, p, x);
      if !GoesOn(s, m, x) {
        return false, m;
      }
      var c := s.rows[x].m;
      FollowedNext(s, folderOp, source, m, x);
      m := m.(chain := m.chain + [ChainOp(c.op, LastOp(m), c.blob)], blob := c.blob);
      p := x;
    }
  }

  /** A pending create of a note directly in the folder, waiting for the folder alone. */
  predicate DirectNote(s: State, folderOp: Uuid, source: Uuid, i: nat) {
    && i < |s.rows| && s.rows[i].status == Pending
    && var c := s.rows[i].m;
       c.kind == Create && c.otype == Note && c.parent == Some(source) && Deps(c) == {folderOp}
  }

  /** Following the updates of row i's note breaks off at m. */
  ghost predicate BrokenFrom(s: State, folderOp: Uuid, source: Uuid, i: nat, m: Member) {
    i < |s.rows| && m.oldOp == s.rows[i].m.op && Followed(s, folderOp, source, m) && Broken(s, m)
  }

  lemma StartsFollowed(s: State, folderOp: Uuid, source: Uuid, i: nat, newOp: Uuid)
    requires WellFormed(s) && RowsValid(s) && DirectNote(s, folderOp, source, i) && ValidOperationId(newOp)
    ensures var c := s.rows[i].m; Followed(s, folderOp, source, Member(c.obj, c.op, newOp, c.name, c.blob, c.blob, []))
  {
    RowIsValid(s, i);
    IndexIs(s, i, |s.rows|);
    hide ValidObjectId, ValidOperationId, ValidComponent, WellFormed, RowsValid, IndexOf, Deps;
  }

  /** The direct notes among the first n rows, each as the preparation asks. */
  ghost predicate Collected(s: State, folderOp: Uuid, source: Uuid, members: seq<Member>, n: nat) {
    && (forall k :: 0 <= k < |members| ==> MemberOk(s, folderOp, source, members[k]))
    && (forall i: nat :: i < n && DirectNote(s, folderOp, source, i) ==>
          i < |s.rows| && Covers(members, s.rows[i].m.op))
  }

  predicate Covers(members: seq<Member>, op: Uuid) {
    exists k :: 0 <= k < |members| && members[k].oldOp == op
  }

  lemma CoversMore(members: seq<Member>, m: Member, op: Uuid)
    ensures Covers(members + [m], op) <==> Covers(members, op) || m.oldOp == op
  {
    var all := members + [m];
    assert all[|members|] == m && forall k :: 0 <= k < |members| ==> all[k] == members[k];
  }

  lemma CollectedNext(s: State, folderOp: Uuid, source: Uuid, members: seq<Member>, n: nat, m: Member)
    requires Collected(s, folderOp, source, members, n) && DirectNote(s, folderOp, source, n)
    requires MemberOk(s, folderOp, source, m) && m.oldOp == s.rows[n].m.op
    ensures Collected(s, folderOp, source, members + [m], n + 1)
  {
    hide MemberOk, FinalBlob, Covers, Deps;
    forall i: nat | i < n + 1 && DirectNote(s, folderOp, source, i)
      ensures i < |s.rows| && Covers(members + [m], s.rows[i].m.op)
    {
      CoversMore(members, m, s.rows[i].m.op);
    }
  }

  lemma CollectedOver(s: State, folderOp: Uuid, source: Uuid, members: seq<Member>, n: nat)
    requires Collected(s, folderOp, source, members, n) && !DirectNote(s, folderOp, source, n)
    ensures Collected(s, folderOp, source, members, n + 1)
  {
    hide MemberOk, FinalBlob, DirectNote, Covers;
  }

  /** Every note queued directly below the folder, with all its updates: what is collected meets the conditions of the
      preparation and names the bytes of each note's last update. */
  method PendingDirectNoteCreates(s: State, folderOp: Uuid, source: Uuid, mint: nat -> Uuid)
    returns (ok: bool, members: seq<Member>)
    requires WellFormed(s) && RowsValid(s) && FreshIds(s, mint)
    ensures ok ==> Collected(s, folderOp, source, members, |s.rows|)
    ensures !ok ==> exists i: nat, m: Member :: DirectNote(s, folderOp, source, i)
                     && BrokenFrom(s, folderOp, source, i, m)
  {
    members := [];
    for i := 0 to |s.rows|
      invariant Collected(s, folderOp, source, members, i)
    {
      hide WellFormed, RowsValid, Followed, Collected, MemberOk, FinalBlob, Deps, Broken;
      if DirectNote(s, folderOp, source, i) {
        var c := s.rows[i].m;
        StartsFollowed(s, folderOp, source, i, mint(|members|));
        var whole, m := FollowUpdates(s, folderOp, source,
                                      Member(c.obj, c.op, mint(|members|), c.name, c.blob, c.blob, []), i);
        if !whole {
          assert BrokenFrom(s, folderOp, source, i, m);
          return false, members;
        }
        CollectedNext(s, folderOp, source, members, i, m);
        members := members + [m];
      } else {
        CollectedOver(s, folderOp, source, members, i);
      }
    }
    ok := true;
  }

  /** Collected notes meet the conditions of the preparation. */
  lemma CollectedFits(s: State, folderOp: Uuid, r: FolderRecovery)
    requires Collected(s, folderOp, r.source, r.members, |s.rows|)
    ensures forall k :: 0 <= k < |r.members| ==> MemberOk(s, folderOp, r.source, r.members[k])
  {
    hide MemberOk, FinalBlob, DirectNote;
  }
}
