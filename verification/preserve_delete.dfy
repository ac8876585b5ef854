/** Completion descriptors of a folder preserve-delete (protocol version 4) and their validator. */
module PreserveDelete {
  import opened Ids
  import opened Naming

  const MAX_MEMBERS: nat := 10000
  const MAX_DEPTH: nat := 256

  datatype Clone = Clone(
    original: Uuid, recovered: Uuid, sourceParent: Uuid, targetParent: Uuid,
    createCursor: nat, deleteCursor: nat, sourceRevision: nat, depth: nat, name: string)

  datatype NoteMove = NoteMove(
    note: Uuid, sourceParent: Uuid, targetParent: Uuid,
    moveCursor: nat, sourceRevision: nat, targetRevision: nat, name: string, hash: Hash)

  datatype Descriptor = Descriptor(
    folder: Uuid, recovered: Uuid, recoveredName: string,
    first: nat, last: nat, clones: seq<Clone>, notes: seq<NoteMove>)

  /** Slot 0 is the deleted folder itself, slot k the k-th clone. */
  function SlotSource(d: Descriptor, k: nat): Uuid
    requires k <= |d.clones|
  {
    if k == 0 then d.folder else d.clones[k - 1].original
  }

  function SlotTarget(d: Descriptor, k: nat): Uuid
    requires k <= |d.clones|
  {
    if k == 0 then d.recovered else d.clones[k - 1].recovered
  }

  function SlotDepth(d: Descriptor, k: nat): nat
    requires k <= |d.clones|
  {
    if k == 0 then 0 else d.clones[k - 1].depth
  }

  function SlotDelete(d: Descriptor, k: nat): nat
    requires k <= |d.clones|
  {
    if k == 0 then d.last else d.clones[k - 1].deleteCursor
  }

  /** Whether `id` is one of the ids named by the root pair or the first n clones. */
  predicate Named(d: Descriptor, n: nat, id: Uuid)
    requires n <= |d.clones|
  {
    exists k :: 0 <= k <= n && (id == SlotSource(d, k) || id == SlotTarget(d, k))
  }

  function DeleteStart(d: Descriptor): nat {
    d.first + 1 + |d.clones| + |d.notes|
  }

  predicate SpanOk(d: Descriptor) {
    var f, n := |d.clones|, |d.notes|;
    && f + n + 1 <= MAX_MEMBERS
    && f <= (MAX_INT64 - 1 - n) / 2
    && d.first + (2 * f + n + 1) <= MAX_INT64
    && d.last == d.first + 2 * f + n + 1
  }

  /** Clone i hangs below slot k. */
  predicate CloneParent(d: Descriptor, i: nat, k: nat)
    requires i < |d.clones| && k <= i
  {
    var c := d.clones[i];
    && c.sourceParent == SlotSource(d, k)
    && c.targetParent == SlotTarget(d, k)
    && c.depth == SlotDepth(d, k) + 1
    && c.deleteCursor < SlotDelete(d, k)
  }

  predicate ClonePlaced(d: Descriptor, i: nat)
    requires i < |d.clones|
  {
    exists k :: 0 <= k <= i && CloneParent(d, i, k)
  }

  /** Clones are listed by depth, then by original id. */
  predicate CloneOrdered(d: Descriptor, i: nat)
    requires i < |d.clones|
  {
    i == 0 || d.clones[i - 1].depth < d.clones[i].depth
    || (d.clones[i - 1].depth == d.clones[i].depth && d.clones[i - 1].original < d.clones[i].original)
  }

  predicate CloneOk(d: Descriptor, i: nat)
    requires i < |d.clones|
  {
    var c := d.clones[i];
    && ValidObjectId(c.original) && ValidObjectId(c.recovered)
    && !Named(d, i, c.original) && !Named(d, i, c.recovered)
    && c.createCursor == d.first + 1 + i
    && ClonePlaced(d, i)
    && 0 < c.depth <= MAX_DEPTH
    && DeleteStart(d) <= c.deleteCursor < d.last
    && (forall j :: 0 <= j < i ==> d.clones[j].deleteCursor != c.deleteCursor)
    && 0 < c.sourceRevision <= MAX_INT64
    && ValidComponent(c.name)
    && CloneOrdered(d, i)
  }

  /** Note m hangs below slot k. */
  predicate NoteParent(d: Descriptor, m: NoteMove, k: nat)
    requires k <= |d.clones|
  {
    m.sourceParent == SlotSource(d, k) && m.targetParent == SlotTarget(d, k)
  }

  /** Notes are listed by parent slot, then by id. */
  predicate NoteOrdered(d: Descriptor, i: nat, k: nat)
    requires i < |d.notes| && k <= |d.clones|
  {
    i == 0 ||
    var before := d.notes[i - 1];
    exists j :: 0 <= j <= k && NoteParent(d, before, j) && (j == k ==> before.note < d.notes[i].note)
  }

  predicate NotePlaced(d: Descriptor, i: nat)
    requires i < |d.notes|
  {
    exists k :: 0 <= k <= |d.clones| && NoteParent(d, d.notes[i], k) && NoteOrdered(d, i, k)
  }

  predicate NoteOk(d: Descriptor, i: nat)
    requires i < |d.notes|
  {
    var m := d.notes[i];
    && ValidObjectId(m.note)
    && !Named(d, |d.clones|, m.note)
    && (forall j :: 0 <= j < i ==> d.notes[j].note != m.note)
    && m.moveCursor == d.first + 1 + |d.clones| + i
    && 0 < m.sourceRevision && m.targetRevision == m.sourceRevision + 1 && m.targetRevision <= MAX_INT64
    && |m.hash| == HASH_SIZE
    && ValidComponent(m.name)
    && NotePlaced(d, i)
  }

  /** What an accepted version 4 completion descriptor satisfies. */
  predicate Accepted(d: Descriptor) {
    && SpanOk(d)
    && ValidComponent(d.recoveredName)
    && (forall i :: 0 <= i < |d.clones| ==> CloneOk(d, i))
    && (forall i :: 0 <= i < |d.notes| ==> NoteOk(d, i))
  }

  /** The distinctness of source slots that the clone checks establish. */
  lemma SourcesDistinct(d: Descriptor, n: nat, j: nat, k: nat)
    requires n <= |d.clones| && forall i :: 0 <= i < n ==> CloneOk(d, i)
    requires j < k <= n
    ensures SlotSource(d, j) != SlotSource(d, k)
    ensures SlotTarget(d, j) != SlotTarget(d, k)
    ensures SlotSource(d, j) != SlotTarget(d, k)
    ensures SlotTarget(d, j) != SlotSource(d, k)
  {
    assert CloneOk(d, k - 1);
  }

  /** The validator's tables after n clones. */
  function Seen(d: Descriptor, n: nat): set<Uuid>
    requires n <= |d.clones|
  {
    if n == 0 then {d.folder, d.recovered} else Seen(d, n - 1) + {d.clones[n - 1].original, d.clones[n - 1].recovered}
  }

  function Targets(d: Descriptor, n: nat): map<Uuid, Uuid>
    requires n <= |d.clones|
  {
    if n == 0 then map[d.folder := d.recovered]
    else Targets(d, n - 1)[d.clones[n - 1].original := d.clones[n - 1].recovered]
  }

  function Depths(d: Descriptor, n: nat): map<Uuid, nat>
    requires n <= |d.clones|
  {
    if n == 0 then map[d.folder := 0] else Depths(d, n - 1)[d.clones[n - 1].original := d.clones[n - 1].depth]
  }

  function Ranks(d: Descriptor, n: nat): map<Uuid, nat>
    requires n <= |d.clones|
  {
    if n == 0 then map[d.folder := 0] else Ranks(d, n - 1)[d.clones[n - 1].original := n]
  }

  function DeleteCursors(d: Descriptor, n: nat): set<nat>
    requires n <= |d.clones|
  {
    if n == 0 then {} else DeleteCursors(d, n - 1) + {d.clones[n - 1].deleteCursor}
  }

  lemma {:induction false} SeenNamed(d: Descriptor, n: nat)
    requires n <= |d.clones|
    ensures forall id :: id in Seen(d, n) <==> Named(d, n, id)
  {
    if n == 0 {
      assert SlotSource(d, 0) == d.folder && SlotTarget(d, 0) == d.recovered;
    } else {
      SeenNamed(d, n - 1);
      assert SlotSource(d, n) == d.clones[n - 1].original && SlotTarget(d, n) == d.clones[n - 1].recovered;
    }
  }

  lemma {:induction false} DeleteCursorsUsed(d: Descriptor, n: nat)
    requires n <= |d.clones|
    ensures forall c :: c in DeleteCursors(d, n) <==> exists j :: 0 <= j < n && d.clones[j].deleteCursor == c
  {
    if n > 0 {
      DeleteCursorsUsed(d, n - 1);
    }
  }

  /** Every source id known after n clones, with its slot, target and depth. */
  ghost predicate Tables(d: Descriptor, n: nat, targets: map<Uuid, Uuid>, depths: map<Uuid, nat>, ranks: map<Uuid, nat>)
    requires n <= |d.clones|
  {
    && targets.Keys == depths.Keys == ranks.Keys
    && (forall id :: id in ranks ==>
          && ranks[id] <= n
          && id == SlotSource(d, ranks[id])
          && targets[id] == SlotTarget(d, ranks[id])
          && depths[id] == SlotDepth(d, ranks[id]))
    && (forall k :: 0 <= k <= n ==> SlotSource(d, k) in ranks && ranks[SlotSource(d, k)] == k)
  }

  lemma ExtendTables(d: Descriptor, n: nat)
    requires n < |d.clones| && Tables(d, n, Targets(d, n), Depths(d, n), Ranks(d, n))
    requires forall k :: 0 <= k <= n ==> SlotSource(d, k) != d.clones[n].original
    ensures Tables(d, n + 1, Targets(d, n + 1), Depths(d, n + 1), Ranks(d, n + 1))
  {
    var c := d.clones[n];
    var targets, depths, ranks := Targets(d, n), Depths(d, n), Ranks(d, n);
    assert c.original == SlotSource(d, n + 1) && c.recovered == SlotTarget(d, n + 1) && c.depth == SlotDepth(d, n + 1);
    assert Targets(d, n + 1) == targets[c.original := c.recovered];
    assert Depths(d, n + 1) == depths[c.original := c.depth];
    assert Ranks(d, n + 1) == ranks[c.original := n + 1];
    hide Targets, Depths, Ranks, SlotSource, SlotTarget, SlotDepth;
  }

  lemma NewSource(d: Descriptor, n: nat)
    requires n < |d.clones| && CloneOk(d, n)
    ensures forall k :: 0 <= k <= n ==> SlotSource(d, k) != d.clones[n].original
  {
  }

  lemma {:induction false} TablesHold(d: Descriptor, n: nat)
    requires n <= |d.clones| && forall j :: 0 <= j < n ==> CloneOk(d, j)
    ensures Tables(d, n, Targets(d, n), Depths(d, n), Ranks(d, n))
  {
    if n > 0 {
      hide *;
      TablesHold(d, n - 1);
      NewSource(d, n - 1);
      ExtendTables(d, n - 1);
    }
  }

  /** The delete cursor the validator compares against: that of the first earlier clone of the parent, or the root's. */
  method ParentDelete(d: Descriptor, i: nat) returns (cursor: nat)
    requires i < |d.clones| && Tables(d, i, Targets(d, i), Depths(d, i), Ranks(d, i))
    ensures forall k :: 0 <= k <= i && SlotSource(d, k) == d.clones[i].sourceParent ==> cursor == SlotDelete(d, k)
  {
    var parent := d.clones[i].sourceParent;
    for j := 0 to i
      invariant forall m :: 0 <= m < j ==> d.clones[m].original != parent
    {
      if d.clones[j].original == parent {
        assert SlotSource(d, j + 1) == parent;
        return d.clones[j].deleteCursor;
      }
    }
    cursor := d.last;
  }

  lemma PlacedByTables(d: Descriptor, i: nat, parentDelete: nat)
    requires i < |d.clones| && Tables(d, i, Targets(d, i), Depths(d, i), Ranks(d, i))
    requires forall k :: 0 <= k <= i && SlotSource(d, k) == d.clones[i].sourceParent ==>
               parentDelete == SlotDelete(d, k)
    ensures var c := d.clones[i];
            Targets(d, i).Keys == Depths(d, i).Keys &&
            (ClonePlaced(d, i) <==>
              && c.sourceParent in Targets(d, i)
              && c.targetParent == Targets(d, i)[c.sourceParent]
              && c.depth == Depths(d, i)[c.sourceParent] + 1
              && c.deleteCursor < parentDelete)
  {
    var c := d.clones[i];
    if c.sourceParent in Ranks(d, i) {
      var rank := Ranks(d, i)[c.sourceParent];
      assert forall k :: 0 <= k <= i && CloneParent(d, i, k) ==> k == rank;
      assert CloneParent(d, i, rank) || !CloneParent(d, i, rank);
    }
  }

  /** The checks on one clone, against the tables of the clones before it. */
  method CheckClone(d: Descriptor, i: nat, seen: set<Uuid>, targets: map<Uuid, Uuid>, depths: map<Uuid, nat>,
                    deleteCursors: set<nat>)
      returns (ok: bool)
    requires i < |d.clones| && Tables(d, i, Targets(d, i), Depths(d, i), Ranks(d, i))
    requires seen == Seen(d, i) && targets == Targets(d, i) && depths == Depths(d, i)
             && deleteCursors == DeleteCursors(d, i)
    ensures ok <==> CloneOk(d, i)
  {
    hide ValidObjectId, ValidComponent, Tables, Seen, Named, Targets, Depths, Ranks, DeleteCursors, ClonePlaced,
         CloneOrdered;
    var c := d.clones[i];
    SeenNamed(d, i);
    DeleteCursorsUsed(d, i);
    if !ValidObjectId(c.original) || !ValidObjectId(c.recovered) || c.original in seen || c.recovered in seen
       || c.createCursor != d.first + 1 + i {
      return false;
    }
    var parentDelete := ParentDelete(d, i);
    PlacedByTables(d, i, parentDelete);
    if c.sourceParent !in targets {
      return false;
    }
    if c.targetParent != targets[c.sourceParent] || c.depth == 0 || c.depth > MAX_DEPTH
       || c.depth != depths[c.sourceParent] + 1
       || c.deleteCursor < d.first + 1 + |d.clones| + |d.notes| || c.deleteCursor >= d.last
       || c.deleteCursor in deleteCursors || c.deleteCursor >= parentDelete
       || c.sourceRevision == 0 || c.sourceRevision > MAX_INT64 || !ValidComponent(c.name) {
      return false;
    }
    ok := CloneOrdered(d, i);
  }

  /** The version 4 completion check: accepts exactly the descriptors of `Accepted`. */
  method ValidateCompletion(d: Descriptor) returns (ok: bool)
    ensures ok <==> Accepted(d)
  {
    hide CloneOk, NoteOk, ValidComponent, Tables;
    var f, n := |d.clones|, |d.notes|;
    if f + n + 1 > MAX_MEMBERS || f > (MAX_INT64 - 1 - n) / 2 || d.first > MAX_INT64 - (2 * f + n + 1)
       || d.last != d.first + 2 * f + n + 1 {
      return false;
    }
    if !ValidComponent(d.recoveredName) {
      return false;
    }
    var seen: set<Uuid> := {d.folder, d.recovered};
    var sourceTargets: map<Uuid, Uuid> := map[d.folder := d.recovered];
    var sourceDepths: map<Uuid, nat> := map[d.folder := 0];
    var sourceRanks: map<Uuid, nat> := map[d.folder := 0];
    var deleteCursors: set<nat> := {};
    for i := 0 to f
      invariant forall j :: 0 <= j < i ==> CloneOk(d, j)
      invariant seen == Seen(d, i) && sourceTargets == Targets(d, i) && sourceDepths == Depths(d, i)
      invariant sourceRanks == Ranks(d, i) && deleteCursors == DeleteCursors(d, i)
    {
      TablesHold(d, i);
      var valid := CheckClone(d, i, seen, sourceTargets, sourceDepths, deleteCursors);
      if !valid {
        return false;
      }
      var c := d.clones[i];
      sourceTargets := sourceTargets[c.original := c.recovered];
      sourceDepths := sourceDepths[c.original := c.depth];
      sourceRanks := sourceRanks[c.original := i + 1];
      deleteCursors := deleteCursors + {c.deleteCursor};
      seen := seen + {c.original, c.recovered};
    }
    ok := ValidateNotes(d, seen, sourceTargets, sourceRanks);
  }

  function NoteIds(d: Descriptor, n: nat): set<Uuid>
    requires n <= |d.notes|
  {
    if n == 0 then {} else NoteIds(d, n - 1) + {d.notes[n - 1].note}
  }

  lemma {:induction false} NoteIdsUsed(d: Descriptor, n: nat)
    requires n <= |d.notes|
    ensures forall id :: id in NoteIds(d, n) <==> exists j :: 0 <= j < n && d.notes[j].note == id
  {
    if n > 0 {
      NoteIdsUsed(d, n - 1);
    }
  }

  /** The rank of the parent of the note before note i; -1 for the first note. */
  predicate PreviousRank(d: Descriptor, i: nat, rank: int)
    requires i <= |d.notes|
  {
    if i == 0 then rank == -1 else 0 <= rank <= |d.clones| && NoteParent(d, d.notes[i - 1], rank)
  }

  lemma NotePlacedByTables(d: Descriptor, i: nat, previousRank: int)
    requires i < |d.notes| && PreviousRank(d, i, previousRank)
    requires Tables(d, |d.clones|, Targets(d, |d.clones|), Depths(d, |d.clones|), Ranks(d, |d.clones|))
    ensures var m, targets, ranks := d.notes[i], Targets(d, |d.clones|), Ranks(d, |d.clones|);
            targets.Keys == ranks.Keys &&
            (NotePlaced(d, i) <==>
              && m.sourceParent in targets
              && m.targetParent == targets[m.sourceParent]
              && previousRank <= ranks[m.sourceParent]
              && (i > 0 && ranks[m.sourceParent] == previousRank ==> d.notes[i - 1].note < m.note)) &&
            (NotePlaced(d, i) ==> PreviousRank(d, i + 1, ranks[m.sourceParent]))
  {
    var m, ranks := d.notes[i], Ranks(d, |d.clones|);
    if m.sourceParent in ranks {
      var rank := ranks[m.sourceParent];
      assert forall k :: 0 <= k <= |d.clones| && NoteParent(d, m, k) ==> k == rank;
      if i > 0 {
        var before := d.notes[i - 1];
        assert forall k :: 0 <= k <= |d.clones| && NoteParent(d, before, k) ==> k == previousRank;
      }
      assert NoteParent(d, m, rank) && NoteOrdered(d, i, rank) ==> NotePlaced(d, i);
    }
  }

  /** The checks on one note, against the finished tables and the notes before it. */
  method CheckNote(d: Descriptor, i: nat, seen: set<Uuid>, targets: map<Uuid, Uuid>, ranks: map<Uuid, nat>,
                   previousRank: int)
      returns (ok: bool, rank: int)
    requires i < |d.notes| && seen == Seen(d, |d.clones|) + NoteIds(d, i)
    requires targets == Targets(d, |d.clones|) && ranks == Ranks(d, |d.clones|)
    requires Tables(d, |d.clones|, targets, Depths(d, |d.clones|), ranks)
    requires PreviousRank(d, i, previousRank)
    ensures ok <==> NoteOk(d, i)
    ensures ok ==> PreviousRank(d, i + 1, rank)
  {
    hide ValidObjectId, Tables, Seen, Named, NoteIds, Targets, Ranks, PreviousRank, NotePlaced;
    SeenNamed(d, |d.clones|);
    NoteIdsUsed(d, i);
    NotePlacedByTables(d, i, previousRank);
    var m := d.notes[i];
    rank := -1;
    if !ValidObjectId(m.note) || m.note in seen || m.moveCursor != d.first + 1 + |d.clones| + i || m.sourceRevision == 0
       || m.targetRevision != m.sourceRevision + 1 || m.name == "" || |m.hash| != HASH_SIZE {
      return false, rank;
    }
    if m.sourceParent !in targets {
      return false, rank;
    }
    rank := ranks[m.sourceParent];
    if m.targetParent != targets[m.sourceParent] || m.sourceRevision > MAX_INT64 || m.targetRevision > MAX_INT64
       || !ValidComponent(m.name) || rank < previousRank
       || (i > 0 && rank == previousRank && m.note <= d.notes[i - 1].note) {
      return false, rank;
    }
    ok := true;
  }

  /** The note pass of the check, over the tables the clone pass built. */
  method ValidateNotes(d: Descriptor, named: set<Uuid>, targets: map<Uuid, Uuid>, ranks: map<Uuid, nat>)
      returns (ok: bool)
    requires forall j :: 0 <= j < |d.clones| ==> CloneOk(d, j)
    requires named == Seen(d, |d.clones|) && targets == Targets(d, |d.clones|) && ranks == Ranks(d, |d.clones|)
    ensures ok <==> forall i :: 0 <= i < |d.notes| ==> NoteOk(d, i)
  {
    hide CloneOk, NoteOk, Tables, PreviousRank;
    TablesHold(d, |d.clones|);
    var seen := named;
    var previousRank := -1;
    FirstRank(d);
    for i := 0 to |d.notes|
      invariant forall j :: 0 <= j < i ==> NoteOk(d, j)
      invariant seen == named + NoteIds(d, i)
      invariant PreviousRank(d, i, previousRank)
    {
      var valid, rank := CheckNote(d, i, seen, targets, ranks, previousRank);
      if !valid {
        return false;
      }
      previousRank := rank;
      seen := seen + {d.notes[i].note};
    }
    ok := true;
  }

  lemma FirstRank(d: Descriptor)
    ensures PreviousRank(d, 0, -1)
  {
  }
}
