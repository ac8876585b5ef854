/** Replaying an accepted preserve-delete descriptor on the server's object tree, in cursor order. */
module PreserveReplay {
  import opened Ids
  import opened PreserveDelete

  datatype Node = Node(isFolder: bool, parent: Uuid, name: string, revision: nat, hash: Hash)

  type Tree = map<Uuid, Node>

  /** Sibling names are compared through a collision key. */
  type Key = string -> string

  datatype Event =
    | CreateFolder(id: Uuid, parent: Uuid, name: string)
    | MoveNote(id: Uuid, parent: Uuid, name: string, revision: nat)
    | DeleteFolder(id: Uuid, revision: nat)

  predicate FreeName(t: Tree, key: Key, id: Uuid, parent: Uuid, name: string) {
    forall x :: x in t && x != id && t[x].parent == parent ==> key(t[x].name) != key(name)
  }

  predicate IsFolder(t: Tree, id: Uuid) {
    id in t && t[id].isFolder
  }

  /** When the server may append the event: the parent is there, the name is free, a deleted folder is empty. */
  predicate Legal(t: Tree, key: Key, e: Event) {
    match e
    case CreateFolder(id, parent, name) => id !in t && IsFolder(t, parent) && FreeName(t, key, id, parent, name)
    case MoveNote(id, parent, name, revision) =>
      && id in t && !t[id].isFolder && revision == t[id].revision + 1
      && IsFolder(t, parent) && FreeName(t, key, id, parent, name)
    case DeleteFolder(id, revision) =>
      && IsFolder(t, id) && revision == t[id].revision + 1
      && forall x :: x in t ==> t[x].parent != id
  }

  function Apply(t: Tree, e: Event): Tree {
    match e
    case CreateFolder(id, parent, name) => t[id := Node(true, parent, name, 1, [])]
    case MoveNote(id, parent, name, revision) =>
      if id in t then t[id := t[id].(parent := parent, name := name, revision := revision)] else t
    case DeleteFolder(id, revision) => t - {id}
  }

  /** The clone whose deletion uses cursor c, if any. */
  function DeletedAt(d: Descriptor, c: nat, n: nat): int
    requires n <= |d.clones|
    ensures -1 <= DeletedAt(d, c, n) < n
    ensures DeletedAt(d, c, n) >= 0 ==> d.clones[DeletedAt(d, c, n)].deleteCursor == c
    ensures DeletedAt(d, c, n) < 0 ==> forall i :: 0 <= i < n ==> d.clones[i].deleteCursor != c
  {
    if n == 0 then -1 else if d.clones[n - 1].deleteCursor == c then n - 1 else DeletedAt(d, c, n - 1)
  }

  /** What a descriptor puts at each cursor. */
  datatype Item = RootCreate | CloneCreate(i: nat) | Move(j: nat) | CloneDelete(k: nat) | RootDelete

  predicate HasItem(d: Descriptor, item: Item) {
    match item
    case CloneCreate(i) => i < |d.clones|
    case Move(j) => j < |d.notes|
    case CloneDelete(k) => k < |d.clones|
    case _ => true
  }

  function CursorOf(d: Descriptor, item: Item): nat
    requires HasItem(d, item)
  {
    match item
    case RootCreate => d.first
    case CloneCreate(i) => d.clones[i].createCursor
    case Move(j) => d.notes[j].moveCursor
    case CloneDelete(k) => d.clones[k].deleteCursor
    case RootDelete => d.last
  }

  function EventOf(d: Descriptor, home: Uuid, rootRevision: nat, item: Item): Event
    requires HasItem(d, item)
  {
    match item
    case RootCreate => CreateFolder(d.recovered, home, d.recoveredName)
    case CloneCreate(i) => CreateFolder(d.clones[i].recovered, d.clones[i].targetParent, d.clones[i].name)
    case Move(j) => MoveNote(d.notes[j].note, d.notes[j].targetParent, d.notes[j].name, d.notes[j].targetRevision)
    case CloneDelete(k) => DeleteFolder(d.clones[k].original, d.clones[k].sourceRevision + 1)
    case RootDelete => DeleteFolder(d.folder, rootRevision + 1)
  }

  // ---------------------------------------------------------------- cursors

  function Range(a: nat, n: nat): set<nat> {
    if n == 0 then {} else Range(a, n - 1) + {a + n - 1}
  }

  lemma {:induction false} RangeCard(a: nat, n: nat)
    ensures forall c :: c in Range(a, n) <==> a <= c < a + n
    ensures |Range(a, n)| == n
  {
    if n > 0 {
      RangeCard(a, n - 1);
    }
  }

  lemma {:induction false} DistinctCard(d: Descriptor, n: nat)
    requires n <= |d.clones| && forall i, j :: 0 <= i < j < n ==> d.clones[i].deleteCursor != d.clones[j].deleteCursor
    ensures |DeleteCursors(d, n)| == n
  {
    if n > 0 {
      DistinctCard(d, n - 1);
      DeleteCursorsUsed(d, n - 1);
    }
  }

  /** Clone deletions are only checked for range and distinctness, yet they fill their whole range. */
  lemma DeletesFillRange(d: Descriptor, c: nat)
    requires Accepted(d) && DeleteStart(d) <= c < d.last
    ensures DeletedAt(d, c, |d.clones|) >= 0
  {
    var f := |d.clones|;
    forall i, j | 0 <= i < j < f
      ensures d.clones[i].deleteCursor != d.clones[j].deleteCursor
    {
      assert CloneOk(d, j);
    }
    DistinctCard(d, f);
    DeleteCursorsUsed(d, f);
    var range := Range(DeleteStart(d), f);
    RangeCard(DeleteStart(d), f);
    forall x | x in DeleteCursors(d, f)
      ensures x in range
    {
      var j :| 0 <= j < f && d.clones[j].deleteCursor == x;
      assert CloneOk(d, j);
    }
    SubsetCardEqual(DeleteCursors(d, f), range);
    assert c in range;
  }

  lemma SubsetCardEqual(a: set<nat>, b: set<nat>)
    requires a <= b && |a| == |b|
    ensures a == b
  {
    assert |b - a| == |b| - |a|;
  }

  function ItemAt(d: Descriptor, c: nat): Item
    ensures HasItem(d, ItemAt(d, c))
  {
    var f, n := |d.clones|, |d.notes|;
    if c <= d.first then RootCreate
    else if c <= d.first + f then CloneCreate(c - d.first - 1)
    else if c <= d.first + f + n then Move(c - d.first - 1 - f)
    else if c < d.last && DeletedAt(d, c, f) >= 0 then CloneDelete(DeletedAt(d, c, f))
    else RootDelete
  }

  lemma ItemCursor(d: Descriptor, c: nat)
    requires Accepted(d) && d.first <= c <= d.last
    ensures CursorOf(d, ItemAt(d, c)) == c
  {
    var f, n := |d.clones|, |d.notes|;
    if d.first < c <= d.first + f {
      assert CloneOk(d, c - d.first - 1);
    } else if d.first + f < c <= d.first + f + n {
      assert NoteOk(d, c - d.first - 1 - f);
    } else if d.first + f + n < c < d.last {
      DeletesFillRange(d, c);
    }
  }

  /** An accepted descriptor uses each cursor from first to last, each exactly once, and no other. */
  lemma CursorsUsedOnce(d: Descriptor, c: nat)
    requires Accepted(d)
    ensures d.first <= c <= d.last <==> exists item :: HasItem(d, item) && CursorOf(d, item) == c
    ensures forall x, y :: HasItem(d, x) && HasItem(d, y) && CursorOf(d, x) == CursorOf(d, y) ==> x == y
  {
    if d.first <= c <= d.last {
      var item := ItemAt(d, c);
      ItemCursor(d, c);
      assert HasItem(d, item) && CursorOf(d, item) == c;
    }
    forall item | HasItem(d, item)
      ensures d.first <= CursorOf(d, item) <= d.last && item == ItemAt(d, CursorOf(d, item))
    {
      ItemUnique(d, item);
    }
  }

  lemma ItemUnique(d: Descriptor, item: Item)
    requires Accepted(d) && HasItem(d, item)
    ensures d.first <= CursorOf(d, item) <= d.last && item == ItemAt(d, CursorOf(d, item))
  {
    match item {
      case CloneCreate(i) => assert CloneOk(d, i);
      case Move(j) => assert NoteOk(d, j);
      case CloneDelete(k) =>
        assert CloneOk(d, k);
        var m := DeletedAt(d, d.clones[k].deleteCursor, |d.clones|);
        assert CloneOk(d, m);
      case RootCreate =>
      case RootDelete =>
    }
  }

  // ---------------------------------------------------------------- replay

  /** The tree after the events at cursors first up to but not including c. */
  function RunTo(t: Tree, d: Descriptor, home: Uuid, rootRevision: nat, c: nat): Tree {
    if c <= d.first then t
    else Apply(RunTo(t, d, home, rootRevision, c - 1), EventOf(d, home, rootRevision, ItemAt(d, c - 1)))
  }

  predicate LegalAt(t: Tree, key: Key, d: Descriptor, home: Uuid, rootRevision: nat, c: nat) {
    Legal(RunTo(t, d, home, rootRevision, c), key, EventOf(d, home, rootRevision, ItemAt(d, c)))
  }

  predicate Replayable(t: Tree, key: Key, d: Descriptor, home: Uuid, rootRevision: nat) {
    forall c :: d.first <= c <= d.last ==> LegalAt(t, key, d, home, rootRevision, c)
  }

  /** No folder is paired with itself; the validator compares neither pair. */
  predicate NoSelfPairs(d: Descriptor) {
    d.folder != d.recovered && forall i :: 0 <= i < |d.clones| ==> d.clones[i].original != d.clones[i].recovered
  }

  predicate IsSource(d: Descriptor, id: Uuid) {
    exists k :: 0 <= k <= |d.clones| && SlotSource(d, k) == id
  }

  predicate IsNote(d: Descriptor, id: Uuid) {
    exists j :: 0 <= j < |d.notes| && d.notes[j].note == id
  }

  predicate CloneListed(t: Tree, c: Clone) {
    IsFolder(t, c.original) && t[c.original].parent == c.sourceParent && t[c.original].name == c.name
    && t[c.original].revision == c.sourceRevision
  }

  predicate NoteListed(t: Tree, m: NoteMove) {
    m.note in t && !t[m.note].isFolder && t[m.note].parent == m.sourceParent && t[m.note].name == m.name
    && t[m.note].revision == m.sourceRevision && t[m.note].hash == m.hash
  }

  /** The clones and notes are exactly what lies below the folder. */
  predicate ListsSubtree(t: Tree, d: Descriptor) {
    && IsFolder(t, d.folder)
    && (forall i :: 0 <= i < |d.clones| ==> CloneListed(t, d.clones[i]))
    && (forall j :: 0 <= j < |d.notes| ==> NoteListed(t, d.notes[j]))
    && (forall x :: x in t && IsSource(d, t[x].parent) ==> IsNote(d, x) || (IsSource(d, x) && x != d.folder))
  }

  /** A tree the server can be in: parents exist and sibling names are distinct. */
  predicate WellFormed(t: Tree, key: Key) {
    && NIL !in t
    && (forall x :: x in t && t[x].parent != NIL ==> t[x].parent in t)
    && (forall x, y :: x in t && y in t && x != y && t[x].parent == t[y].parent ==> key(t[x].name) != key(t[y].name))
  }

  /** The ids the server mints are new, unless the descriptor pairs a folder with itself. */
  predicate FreshTargets(t: Tree, d: Descriptor) {
    && d.recovered != NIL
    && forall k :: 0 <= k <= |d.clones| && SlotTarget(d, k) != SlotSource(d, k) ==> SlotTarget(d, k) !in t
  }

  ghost predicate Ready(t: Tree, key: Key, d: Descriptor, home: Uuid, rootRevision: nat) {
    && WellFormed(t, key)
    && ListsSubtree(t, d) && t[d.folder].revision == rootRevision
    && FreshTargets(t, d)
    && IsFolder(t, home) && !IsSource(d, home)
    && FreeName(t, key, NIL, home, d.recoveredName)
  }

  /** The folder created for slot k. */
  function NewNode(d: Descriptor, home: Uuid, k: nat): Node
    requires k <= |d.clones|
  {
    if k == 0 then Node(true, home, d.recoveredName, 1, [])
    else Node(true, d.clones[k - 1].targetParent, d.clones[k - 1].name, 1, [])
  }

  /** The folders created after k clone creations. */
  function Created(d: Descriptor, home: Uuid, k: nat): Tree
    requires k <= |d.clones|
  {
    if k == 0 then map[d.recovered := NewNode(d, home, 0)]
    else Created(d, home, k - 1)[d.clones[k - 1].recovered := NewNode(d, home, k)]
  }

  function MovedNode(t: Tree, m: NoteMove): Node {
    if m.note in t then t[m.note].(parent := m.targetParent, name := m.name, revision := m.targetRevision)
    else Node(false, m.targetParent, m.name, m.targetRevision, m.hash)
  }

  /** The notes rewritten after j moves. */
  function Moved(t: Tree, d: Descriptor, j: nat): Tree
    requires j <= |d.notes|
  {
    if j == 0 then map[] else Moved(t, d, j - 1)[d.notes[j - 1].note := MovedNode(t, d.notes[j - 1])]
  }

  /** The originals deleted before cursor c. */
  function Gone(d: Descriptor, c: nat): set<Uuid> {
    if c <= DeleteStart(d) then {}
    else if DeletedAt(d, c - 1, |d.clones|) < 0 then Gone(d, c - 1)
    else Gone(d, c - 1) + {d.clones[DeletedAt(d, c - 1, |d.clones|)].original}
  }

  /** Different slots share no id. */
  predicate SlotsDistinct(d: Descriptor) {
    forall j, k :: 0 <= j < k <= |d.clones| ==>
      && SlotSource(d, j) != SlotSource(d, k) && SlotTarget(d, j) != SlotTarget(d, k)
      && SlotSource(d, j) != SlotTarget(d, k) && SlotTarget(d, j) != SlotSource(d, k)
  }

  lemma AcceptedDistinct(d: Descriptor)
    requires Accepted(d)
    ensures SlotsDistinct(d)
  {
    forall j, k | 0 <= j < k <= |d.clones|
      ensures SlotSource(d, j) != SlotSource(d, k) && SlotTarget(d, j) != SlotTarget(d, k)
      ensures SlotSource(d, j) != SlotTarget(d, k) && SlotTarget(d, j) != SlotSource(d, k)
    {
      SourcesDistinct(d, |d.clones|, j, k);
    }
  }

  lemma TargetsApart(d: Descriptor, j: nat, k: nat)
    requires SlotsDistinct(d) && j <= |d.clones| && k <= |d.clones| && j != k
    ensures SlotTarget(d, j) != SlotTarget(d, k)
  {
  }

  lemma {:induction false} CreatedHas(d: Descriptor, home: Uuid, n: nat, k: nat)
    requires SlotsDistinct(d) && k <= n <= |d.clones|
    ensures SlotTarget(d, k) in Created(d, home, n) && Created(d, home, n)[SlotTarget(d, k)] == NewNode(d, home, k)
  {
    hide SlotsDistinct, NewNode;
    if k < n {
      CreatedHas(d, home, n - 1, k);
      TargetsApart(d, k, n);
    }
  }

  lemma {:induction false} CreatedOnly(d: Descriptor, home: Uuid, n: nat, x: Uuid)
    requires n <= |d.clones| && x in Created(d, home, n)
    ensures exists k :: 0 <= k <= n && SlotTarget(d, k) == x
  {
    hide NewNode;
    if x == SlotTarget(d, n) {
    } else {
      CreatedOnly(d, home, n - 1, x);
    }
  }

  /** The created folders are those of slots 0 to n, each with the name and parent its slot says. */
  lemma CreatedAt(d: Descriptor, home: Uuid, n: nat)
    requires SlotsDistinct(d) && n <= |d.clones|
    ensures forall x :: x in Created(d, home, n) <==> exists k :: 0 <= k <= n && SlotTarget(d, k) == x
    ensures forall k :: 0 <= k <= n ==>
              SlotTarget(d, k) in Created(d, home, n) && Created(d, home, n)[SlotTarget(d, k)] == NewNode(d, home, k)
  {
    hide SlotsDistinct, Created, NewNode, SlotTarget;
    forall k | 0 <= k <= n
      ensures SlotTarget(d, k) in Created(d, home, n) && Created(d, home, n)[SlotTarget(d, k)] == NewNode(d, home, k)
    {
      CreatedHas(d, home, n, k);
    }
    forall x | x in Created(d, home, n)
      ensures exists k :: 0 <= k <= n && SlotTarget(d, k) == x
    {
      CreatedOnly(d, home, n, x);
    }
  }

  lemma NotesApart(d: Descriptor, i: nat, j: nat)
    requires Accepted(d) && i < |d.notes| && j < |d.notes| && i != j
    ensures d.notes[i].note != d.notes[j].note
  {
    assert NoteOk(d, i) && NoteOk(d, j);
  }

  lemma Listed(t: Tree, d: Descriptor, j: nat)
    requires ListsSubtree(t, d) && j < |d.notes|
    ensures NoteListed(t, d.notes[j])
  {
  }

  lemma {:induction false} MovedHas(t: Tree, d: Descriptor, n: nat, j: nat)
    requires Accepted(d) && ListsSubtree(t, d) && j < n <= |d.notes|
    ensures NoteListed(t, d.notes[j])
    ensures d.notes[j].note in Moved(t, d, n) && Moved(t, d, n)[d.notes[j].note] == MovedNode(t, d.notes[j])
  {
    hide Accepted, ListsSubtree;
    Listed(t, d, j);
    if j < n - 1 {
      MovedHas(t, d, n - 1, j);
      NotesApart(d, j, n - 1);
    }
  }

  lemma {:induction false} MovedOnly(t: Tree, d: Descriptor, n: nat, x: Uuid)
    requires n <= |d.notes| && x in Moved(t, d, n)
    ensures exists j :: 0 <= j < n && d.notes[j].note == x
  {
    if x != d.notes[n - 1].note {
      MovedOnly(t, d, n - 1, x);
    }
  }

  /** The rewritten notes are the first n of the list. */
  lemma MovedAt(t: Tree, d: Descriptor, n: nat)
    requires Accepted(d) && ListsSubtree(t, d) && n <= |d.notes|
    ensures forall x :: x in Moved(t, d, n) <==> exists j :: 0 <= j < n && d.notes[j].note == x
    ensures forall j :: 0 <= j < n ==>
              NoteListed(t, d.notes[j]) && Moved(t, d, n)[d.notes[j].note] == MovedNode(t, d.notes[j])
  {
    hide Accepted, ListsSubtree, Moved;
    forall j | 0 <= j < n
      ensures NoteListed(t, d.notes[j])
      ensures d.notes[j].note in Moved(t, d, n) && Moved(t, d, n)[d.notes[j].note] == MovedNode(t, d.notes[j])
    {
      MovedHas(t, d, n, j);
    }
    forall x | x in Moved(t, d, n)
      ensures exists j :: 0 <= j < n && d.notes[j].note == x
    {
      MovedOnly(t, d, n, x);
    }
  }

  lemma {:induction false} GoneAt(d: Descriptor, c: nat)
    requires Accepted(d) && DeleteStart(d) <= c <= d.last
    ensures forall x :: x in Gone(d, c)
             <==> exists i :: 0 <= i < |d.clones| && d.clones[i].original == x && d.clones[i].deleteCursor < c
  {
    if c > DeleteStart(d) {
      GoneAt(d, c - 1);
      DeletesFillRange(d, c - 1);
      var m := DeletedAt(d, c - 1, |d.clones|);
      forall i | 0 <= i < |d.clones| && d.clones[i].deleteCursor == c - 1
        ensures i == m
      {
        assert CloneOk(d, i) && CloneOk(d, m);
      }
    } else {
      forall i | 0 <= i < |d.clones|
        ensures d.clones[i].deleteCursor >= c
      {
        assert CloneOk(d, i);
      }
    }
  }
}
