/** Checking a directory against a manifest of everything that must be below it. */
module Subtree {
  import opened Ids
  import opened Naming

  type Bytes = seq<Byte>

  type Digest = Bytes -> Hash

  datatype Child = Child(name: string, node: Node)

  /** What a name refers to on disk; the order of children is the order of the directory listing. */
  datatype Node = Dir(device: nat, inode: nat, children: seq<Child>) | File(content: Bytes) | Special

  datatype Kind = FolderEntry | FileEntry

  datatype Entry = Entry(path: Path, kind: Kind, device: nat, inode: nat, hash: Hash)

  function Zeros(n: nat): Hash {
    if n == 0 then [] else Zeros(n - 1) + [0]
  }

  function ZeroHash(): Hash {
    Zeros(HASH_SIZE)
  }

  // ---------------------------------------------------------------- the manifest

  predicate EntryOk(e: Entry) {
    && e.path != [] && (forall i :: 0 <= i < |e.path| ==> ValidComponent(e.path[i]))
    && (if e.kind == FolderEntry then e.device != 0 && e.inode != 0 && e.hash == ZeroHash()
        else e.device == 0 && e.inode == 0)
  }

  predicate ParentListed(entries: seq<Entry>, i: nat)
    requires i < |entries|
  {
    |entries[i].path| > 1 ==>
      exists j :: 0 <= j < |entries| && entries[j].path == entries[i].path[..|entries[i].path| - 1]
          && entries[j].kind == FolderEntry
  }

  /** Entries are well-formed, no path is listed twice, and every parent below the root is a listed folder. */
  predicate ManifestOk(entries: seq<Entry>) {
    && (forall i :: 0 <= i < |entries| ==> EntryOk(entries[i]))
    && (forall i, j :: 0 <= i < j < |entries| ==> entries[i].path != entries[j].path)
    && (forall i :: 0 <= i < |entries| ==> ParentListed(entries, i))
  }

  function EntrySet(entries: seq<Entry>): set<Entry> {
    set e | e in entries
  }

  /** The same as a property of the set of entries. */
  ghost predicate SetOk(m: set<Entry>) {
    && (forall e :: e in m ==> EntryOk(e))
    && (forall a, b :: a in m && b in m && a.path == b.path ==> a == b)
    && (forall e :: e in m && |e.path| > 1 ==>
          exists p :: p in m && p.path == e.path[..|e.path| - 1] && p.kind == FolderEntry)
  }

  lemma ManifestSet(entries: seq<Entry>)
    requires ManifestOk(entries)
    ensures SetOk(EntrySet(entries))
  {
    hide EntryOk;
    var m := EntrySet(entries);
    forall e | e in m && |e.path| > 1
      ensures exists p :: p in m && p.path == e.path[..|e.path| - 1] && p.kind == FolderEntry
    {
      var i :| 0 <= i < |entries| && entries[i] == e;
      assert ParentListed(entries, i);
      var j :| 0 <= j < |entries| && entries[j].path == entries[i].path[..|entries[i].path| - 1]
          && entries[j].kind == FolderEntry;
      assert entries[j] in m;
    }
  }

  /** The listed entries strictly below a path. */
  function Below(m: set<Entry>, prefix: Path): set<Entry> {
    set e | e in m && prefix < e.path
  }

  /** Names listed directly below a path. */
  function Expected(m: set<Entry>, prefix: Path): set<string> {
    set e | e in m && prefix < e.path && |e.path| == |prefix| + 1 :: e.path[|prefix|]
  }

  // ---------------------------------------------------------------- the disk

  /** No directory lists a name twice. */
  predicate NamesApart(children: seq<Child>) {
    children == [] ||
    (&& NamesApart(children[1..])
     && (forall i :: 1 <= i < |children| ==> children[i].name != children[0].name)
     && (children[0].node.Dir? ==> NamesApart(children[0].node.children)))
  }

  /** Everything below is a directory or a regular file within the size bound. */
  predicate Plain(children: seq<Child>, maxBytes: nat) {
    children == [] ||
    (&& Plain(children[1..], maxBytes)
     && (match children[0].node
         case Dir(_, _, below) => Plain(below, maxBytes)
         case File(content) => |content| <= maxBytes
         case Special => false))
  }

  /** The entry a manifest would list for a child. */
  function EntryOf(digest: Digest, c: Child, prefix: Path): Entry {
    match c.node
    case Dir(device, inode, _) => Entry(prefix + [c.name], FolderEntry, device, inode, ZeroHash())
    case File(content) => Entry(prefix + [c.name], FileEntry, 0, 0, digest(content))
    case Special => Entry(prefix + [c.name], FileEntry, 0, 0, ZeroHash())
  }

  /** The entries of everything below. */
  function OnDisk(digest: Digest, children: seq<Child>, prefix: Path): set<Entry> {
    if children == [] then {} else OfChild(digest, children[0], prefix) + OnDisk(digest, children[1..], prefix)
  }

  function OfChild(digest: Digest, c: Child, prefix: Path): set<Entry> {
    {EntryOf(digest, c, prefix)} + (if c.node.Dir? then OnDisk(digest, c.node.children, prefix + [c.name]) else {})
  }

  // ---------------------------------------------------------------- the walk

  /** The child is what entry e says, and so is everything below it. */
  predicate Fits(digest: Digest, m: set<Entry>, c: Child, e: Entry, maxBytes: nat)
    decreases c, 0
  {
    match c.node
    case Dir(device, inode, below) => e.kind == FolderEntry && device == e.device && inode == e.inode
        && LevelFits(digest, m, below, e.path, maxBytes)
    case File(content) => e.kind == FileEntry && |content| <= maxBytes && digest(content) == e.hash
    case Special => false
  }

  predicate EachFits(digest: Digest, m: set<Entry>, children: seq<Child>, prefix: Path, maxBytes: nat)
    decreases children, 0
  {
    children == [] ||
    ((exists e :: e in m && e.path == prefix + [children[0].name] && Fits(digest, m, children[0], e, maxBytes))
     && EachFits(digest, m, children[1..], prefix, maxBytes))
  }

  /** One directory: as many children as listed, each of them listed and fitting. */
  predicate LevelFits(digest: Digest, m: set<Entry>, children: seq<Child>, prefix: Path, maxBytes: nat)
    decreases children, 1
  {
    |children| == |Expected(m, prefix)| && EachFits(digest, m, children, prefix, maxBytes)
  }

  // ---------------------------------------------------------------- parts of the manifest

  function NamesOf(children: seq<Child>): set<string> {
    if children == [] then {} else {children[0].name} + NamesOf(children[1..])
  }

  /** The listed entries below `prefix` whose next component is one of the names. */
  function Part(m: set<Entry>, prefix: Path, names: set<string>): set<Entry> {
    set e | e in m && prefix < e.path && e.path[|prefix|] in names
  }

  lemma {:induction false} NamesCount(children: seq<Child>)
    requires NamesApart(children)
    ensures |NamesOf(children)| == |children|
    ensures forall i :: 0 <= i < |children| ==> children[i].name in NamesOf(children)
  {
    if children != [] {
      NamesCount(children[1..]);
      NameIn(children[1..], children[0].name);
    }
  }

  lemma {:induction false} NameIn(children: seq<Child>, n: string)
    ensures n in NamesOf(children) <==> exists i :: 0 <= i < |children| && children[i].name == n
  {
    if children != [] {
      NameIn(children[1..], n);
      if n in NamesOf(children[1..]) {
        var i :| 0 <= i < |children[1..]| && children[1..][i].name == n;
        assert children[i + 1].name == n;
      }
      if i :| 0 <= i < |children| && children[i].name == n {
        if i > 0 {
          assert children[1..][i - 1].name == n;
        }
      }
    }
  }

  lemma {:induction false} DiskPaths(digest: Digest, children: seq<Child>, prefix: Path, e: Entry)
    requires e in OnDisk(digest, children, prefix)
    ensures prefix < e.path && e.path[|prefix|] in NamesOf(children)
    decreases children, 1
  {
    if e in OfChild(digest, children[0], prefix) {
      ChildPaths(digest, children[0], prefix, e);
    } else {
      DiskPaths(digest, children[1..], prefix, e);
    }
  }

  lemma {:induction false} ChildPaths(digest: Digest, c: Child, prefix: Path, e: Entry)
    requires e in OfChild(digest, c, prefix)
    ensures prefix < e.path && e.path[|prefix|] == c.name
    decreases c, 0
  {
    var own := prefix + [c.name];
    assert own[|prefix|] == c.name && prefix < own;
    if e != EntryOf(digest, c, prefix) {
      DiskPaths(digest, c.node.children, own, e);
      assert e.path[|prefix|] == own[|prefix|];
    }
  }

  /** Every proper prefix of a listed path is a listed folder. */
  lemma {:induction false} ParentOf(m: set<Entry>, path: Path, x: Entry)
    requires SetOk(m) && x in m && path < x.path && path != []
    ensures exists p :: p in m && p.path == path && p.kind == FolderEntry
    decreases |x.path|
  {
    hide EntryOk;
    var p :| p in m && p.path == x.path[..|x.path| - 1] && p.kind == FolderEntry;
    if p.path != path {
      assert path < p.path;
      ParentOf(m, path, p);
    }
  }

  /** Every entry below a path hangs below a listed child of that path. */
  lemma NextListed(m: set<Entry>, prefix: Path, e: Entry)
    requires SetOk(m) && e in m && prefix < e.path
    ensures e.path[|prefix|] in Expected(m, prefix)
  {
    if |e.path| > |prefix| + 1 {
      var next := e.path[..|prefix| + 1];
      assert next[|prefix|] == e.path[|prefix|] && prefix < next;
      hide Expected;
      ParentOf(m, next, e);
      hide SetOk;
      var p :| p in m && p.path == next && p.kind == FolderEntry;
      ListedName(m, prefix, p);
    } else {
      ListedName(m, prefix, e);
    }
  }

  lemma ListedName(m: set<Entry>, prefix: Path, e: Entry)
    requires e in m && prefix < e.path && |e.path| == |prefix| + 1
    ensures e.path[|prefix|] in Expected(m, prefix)
  {
  }

  lemma ExpectedIs(m: set<Entry>, prefix: Path, n: string)
    ensures n in Expected(m, prefix) <==> exists e :: e in m && e.path == prefix + [n]
  {
    if n in Expected(m, prefix) {
      var e :| e in m && prefix < e.path && |e.path| == |prefix| + 1 && e.path[|prefix|] == n;
      assert e.path == prefix + [n];
    }
    if e :| e in m && e.path == prefix + [n] {
      assert e.path[|prefix|] == n && prefix < e.path;
      ListedName(m, prefix, e);
    }
  }

  lemma SamePath(m: set<Entry>, a: Entry, b: Entry)
    requires SetOk(m) && a in m && b in m && a.path == b.path
    ensures a == b
  {
  }

  lemma UnderOne(prefix: Path, n: string, path: Path)
    ensures prefix + [n] <= path <==> prefix < path && path[|prefix|] == n
    ensures prefix + [n] < path ==> prefix < path && path[|prefix|] == n
    ensures prefix + [n] <= path && |path| == |prefix| + 1 ==> path == prefix + [n]
  {
    var own := prefix + [n];
    assert own[|prefix|] == n && own[..|prefix|] == prefix;
    if prefix < path && path[|prefix|] == n {
      assert path[..|prefix| + 1] == own;
    }
    if own <= path {
      assert path[|prefix|] == own[|prefix|];
      assert path[..|prefix|] == own[..|prefix|];
    }
  }

  /** What is listed under one name is its own entry and everything below that. */
  lemma PartOfOne(m: set<Entry>, prefix: Path, n: string, e: Entry)
    requires SetOk(m) && e in m && e.path == prefix + [n]
    ensures Part(m, prefix, {n}) == {e} + Below(m, e.path)
  {
    hide SetOk;
    forall x | x in m
      ensures x in Part(m, prefix, {n}) <==> x in {e} + Below(m, e.path)
    {
      UnderOne(prefix, n, x.path);
      if x.path == e.path {
        SamePath(m, x, e);
      }
    }
  }

  /** Nothing is listed below a file. */
  lemma NothingBelowFile(m: set<Entry>, e: Entry)
    requires SetOk(m) && e in m && e.kind == FileEntry
    ensures Below(m, e.path) == {}
  {
    assert e.path != [];
    assert forall p :: p in m && p.path == e.path ==> p == e;
    hide SetOk, EntryOk;
    if x :| x in Below(m, e.path) {
      ParentOf(m, e.path, x);
      assert false;
    }
  }

  // ---------------------------------------------------------------- the walk decides equality

  predicate PlainChild(c: Child, maxBytes: nat) {
    match c.node
    case Dir(_, _, below) => Plain(below, maxBytes)
    case File(content) => |content| <= maxBytes
    case Special => false
  }

  predicate Matched(digest: Digest, m: set<Entry>, c: Child, prefix: Path, maxBytes: nat) {
    exists e :: e in m && e.path == prefix + [c.name] && Fits(digest, m, c, e, maxBytes)
  }

  predicate ApartBelow(c: Child) {
    c.node.Dir? ==> NamesApart(c.node.children)
  }

  /** A child that fits its entry is, with everything below, exactly what is listed under its name. */
  lemma {:induction false} ChildIff(digest: Digest, m: set<Entry>, c: Child, prefix: Path, maxBytes: nat)
    requires SetOk(m) && ApartBelow(c)
    ensures Matched(digest, m, c, prefix, maxBytes)
            <==> PlainChild(c, maxBytes) && OfChild(digest, c, prefix) == Part(m, prefix, {c.name})
    decreases c, 1
  {
    hide SetOk, Plain, NamesApart;
    var own := EntryOf(digest, c, prefix);
    if Matched(digest, m, c, prefix, maxBytes) {
      var e :| e in m && e.path == prefix + [c.name] && Fits(digest, m, c, e, maxBytes);
      FitsEntry(digest, m, c, prefix, e, maxBytes);
      PartOfOne(m, prefix, c.name, e);
      if c.node.Dir? {
        LevelIff(digest, m, c.node.children, e.path, maxBytes);
      } else {
        NothingBelowFile(m, e);
      }
    }
    if PlainChild(c, maxBytes) && OfChild(digest, c, prefix) == Part(m, prefix, {c.name}) {
      assert own in m;
      PartOfOne(m, prefix, c.name, own);
      if c.node.Dir? {
        BelowOwn(digest, m, c, prefix);
        LevelIff(digest, m, c.node.children, own.path, maxBytes);
      }
      assert Fits(digest, m, c, own, maxBytes);
    }
  }

  lemma FitsEntry(digest: Digest, m: set<Entry>, c: Child, prefix: Path, e: Entry, maxBytes: nat)
    requires SetOk(m) && e in m && e.path == prefix + [c.name] && Fits(digest, m, c, e, maxBytes)
    ensures e == EntryOf(digest, c, prefix)
  {
    assert EntryOk(e);
    hide LevelFits, ValidComponent, SetOk;
  }

  /** The entries strictly below a child are those below its own entry. */
  lemma BelowOwn(digest: Digest, m: set<Entry>, c: Child, prefix: Path)
    requires c.node.Dir? && OfChild(digest, c, prefix) == {EntryOf(digest, c, prefix)} + Below(m, prefix + [c.name])
    ensures OnDisk(digest, c.node.children, prefix + [c.name]) == Below(m, prefix + [c.name])
  {
    var own := EntryOf(digest, c, prefix);
    var disk := OnDisk(digest, c.node.children, prefix + [c.name]);
    forall e | e in disk
      ensures e != own
    {
      DiskPaths(digest, c.node.children, prefix + [c.name], e);
    }
    assert own !in Below(m, prefix + [c.name]);
    assert OfChild(digest, c, prefix) == {own} + disk;
    hide OfChild, OnDisk, Below, EntryOf;
    WithoutOne(own, disk, Below(m, prefix + [c.name]));
  }

  lemma WithoutOne<T>(x: T, a: set<T>, b: set<T>)
    requires x !in a && x !in b && {x} + a == {x} + b
    ensures a == b
  {
    assert a == ({x} + a) - {x};
    assert b == ({x} + b) - {x};
  }

  lemma {:induction false} EachIff(digest: Digest, m: set<Entry>, children: seq<Child>, prefix: Path, maxBytes: nat)
    requires SetOk(m) && NamesApart(children)
    ensures EachFits(digest, m, children, prefix, maxBytes)
            <==> Plain(children, maxBytes) && OnDisk(digest, children, prefix) == Part(m, prefix, NamesOf(children))
    decreases children, 0
  {
    if children == [] {
      assert Part(m, prefix, {}) == {};
    } else {
      var c, rest := children[0], children[1..];
      assert ApartBelow(c);
      assert c.name !in NamesOf(rest) by { NameIn(rest, c.name); }
      assert EachFits(digest, m, children, prefix, maxBytes)
             <==> Matched(digest, m, c, prefix, maxBytes) && EachFits(digest, m, rest, prefix, maxBytes);
      assert Plain(children, maxBytes) <==> PlainChild(c, maxBytes) && Plain(rest, maxBytes);
      assert OnDisk(digest, children, prefix) == OfChild(digest, c, prefix) + OnDisk(digest, rest, prefix);
      hide SetOk, Matched, EachFits, Plain, PlainChild, ApartBelow, OnDisk, OfChild;
      ChildIff(digest, m, c, prefix, maxBytes);
      EachIff(digest, m, rest, prefix, maxBytes);
      SplitParts(digest, m, c, rest, prefix);
    }
  }

  /** Equality over all names is equality for the first name and for the others. */
  lemma SplitParts(digest: Digest, m: set<Entry>, c: Child, rest: seq<Child>, prefix: Path)
    requires c.name !in NamesOf(rest)
    ensures OfChild(digest, c, prefix) + OnDisk(digest, rest, prefix) == Part(m, prefix, {c.name} + NamesOf(rest))
            <==> OfChild(digest, c, prefix) == Part(m, prefix, {c.name})
                 && OnDisk(digest, rest, prefix) == Part(m, prefix, NamesOf(rest))
  {
    var names := NamesOf(rest);
    forall e | e in OfChild(digest, c, prefix)
      ensures prefix < e.path && e.path[|prefix|] == c.name
    {
      ChildPaths(digest, c, prefix, e);
    }
    forall e | e in OnDisk(digest, rest, prefix)
      ensures prefix < e.path && e.path[|prefix|] in names
    {
      DiskPaths(digest, rest, prefix, e);
    }
    hide OfChild, OnDisk, NamesOf;
    SplitByName(OfChild(digest, c, prefix), OnDisk(digest, rest, prefix), m, prefix, c.name, names);
  }

  lemma SplitByName(a: set<Entry>, b: set<Entry>, m: set<Entry>, prefix: Path, n: string, names: set<string>)
    requires n !in names
    requires forall e :: e in a ==> prefix < e.path && e.path[|prefix|] == n
    requires forall e :: e in b ==> prefix < e.path && e.path[|prefix|] in names
    ensures a + b == Part(m, prefix, {n} + names) <==> a == Part(m, prefix, {n}) && b == Part(m, prefix, names)
  {
    assert Part(m, prefix, {n} + names) == Part(m, prefix, {n}) + Part(m, prefix, names);
    assert forall e :: e in Part(m, prefix, {n}) ==> e !in b && e !in Part(m, prefix, names);
    assert forall e :: e in a ==> e !in b && e !in Part(m, prefix, names);
    if a + b == Part(m, prefix, {n} + names) {
      assert forall e :: e in a <==> e in Part(m, prefix, {n});
      assert forall e :: e in b <==> e in Part(m, prefix, names);
    }
  }

  lemma PartOfExpected(m: set<Entry>, prefix: Path)
    requires SetOk(m)
    ensures Part(m, prefix, Expected(m, prefix)) == Below(m, prefix)
  {
    hide SetOk;
    forall e | e in Below(m, prefix)
      ensures e.path[|prefix|] in Expected(m, prefix)
    {
      NextListed(m, prefix, e);
    }
  }

  lemma {:induction false} OwnOnDisk(digest: Digest, children: seq<Child>, prefix: Path, n: string)
    requires n in NamesOf(children)
    ensures exists e :: e in OnDisk(digest, children, prefix) && e.path == prefix + [n]
  {
    if children[0].name == n {
      assert EntryOf(digest, children[0], prefix) in OnDisk(digest, children, prefix);
    } else {
      OwnOnDisk(digest, children[1..], prefix, n);
      var e :| e in OnDisk(digest, children[1..], prefix) && e.path == prefix + [n];
    }
  }

  /** If the disk is what is listed below, the names on disk are the names listed. */
  lemma NamesAgree(digest: Digest, m: set<Entry>, children: seq<Child>, prefix: Path)
    requires OnDisk(digest, children, prefix) == Below(m, prefix)
    ensures NamesOf(children) == Expected(m, prefix)
  {
    forall n
      ensures n in NamesOf(children) <==> n in Expected(m, prefix)
    {
      ExpectedIs(m, prefix, n);
      if n in NamesOf(children) {
        OwnOnDisk(digest, children, prefix, n);
      }
      if n in Expected(m, prefix) {
        var e :| e in m && e.path == prefix + [n];
        UnderOne(prefix, n, e.path);
        assert e in Below(m, prefix);
        DiskPaths(digest, children, prefix, e);
      }
    }
  }

  lemma {:induction false} EachListed(digest: Digest, m: set<Entry>, children: seq<Child>, prefix: Path, maxBytes: nat)
    requires EachFits(digest, m, children, prefix, maxBytes)
    ensures NamesOf(children) <= Expected(m, prefix)
  {
    if children != [] {
      EachListed(digest, m, children[1..], prefix, maxBytes);
      ExpectedIs(m, prefix, children[0].name);
    }
  }

  lemma SubsetAll(a: set<string>, b: set<string>)
    requires a <= b && |a| == |b|
    ensures a == b
  {
    assert |b - a| == 0;
  }

  /** The walk of a directory accepts exactly when everything on disk below it, no more and no less, is listed below its
      path. */
  lemma {:induction false} LevelIff(digest: Digest, m: set<Entry>, children: seq<Child>, prefix: Path, maxBytes: nat)
    requires SetOk(m) && NamesApart(children)
    ensures LevelFits(digest, m, children, prefix, maxBytes)
            <==> Plain(children, maxBytes) && OnDisk(digest, children, prefix) == Below(m, prefix)
    decreases children, 2
  {
    NamesCount(children);
    hide SetOk, NamesApart, Plain, OnDisk, EachFits, Expected, NamesOf, Below, Part;
    EachIff(digest, m, children, prefix, maxBytes);
    PartOfExpected(m, prefix);
    if LevelFits(digest, m, children, prefix, maxBytes) {
      EachListed(digest, m, children, prefix, maxBytes);
      SubsetAll(NamesOf(children), Expected(m, prefix));
    }
    if OnDisk(digest, children, prefix) == Below(m, prefix) {
      NamesAgree(digest, m, children, prefix);
    }
  }

  // ---------------------------------------------------------------- the code's tables and loops

  type Table = map<Path, map<string, Entry>>

  function Listing(table: Table, prefix: Path): map<string, Entry> {
    if prefix in table then table[prefix] else map[]
  }

  /** What the table lists under a path and a name is the entry of that path. */
  ghost predicate SlotOk(m: set<Entry>, table: Table, p: Path, n: string) {
    p in table && n in table[p] ==> table[p][n] in m && table[p][n].path == p + [n]
  }

  /** The children table of the code: for every path the listed entries directly below it, by name. */
  ghost predicate TableOk(m: set<Entry>, table: Table) {
    && (forall p, n :: SlotOk(m, table, p, n))
    && (forall e :: e in m && e.path != [] ==>
          e.path[..|e.path| - 1] in table && e.path[|e.path| - 1] in table[e.path[..|e.path| - 1]])
  }

  lemma ListingIs(m: set<Entry>, table: Table, prefix: Path)
    requires TableOk(m, table)
    ensures Listing(table, prefix).Keys == Expected(m, prefix)
  {
    forall n
      ensures n in Listing(table, prefix) <==> n in Expected(m, prefix)
    {
      ExpectedIs(m, prefix, n);
      assert SlotOk(m, table, prefix, n);
      if n in Expected(m, prefix) {
        var e :| e in m && e.path == prefix + [n];
        assert e.path[..|e.path| - 1] == prefix && e.path[|e.path| - 1] == n;
      }
    }
  }

  lemma {:induction false} ApartAt(children: seq<Child>, i: nat, j: nat)
    requires NamesApart(children) && i < j < |children|
    ensures children[i].name != children[j].name
  {
    if i > 0 {
      ApartAt(children[1..], i - 1, j - 1);
    }
  }

  /** One more child of the listing is checked. */
  lemma NextChild(digest: Digest, m: set<Entry>, children: seq<Child>, i: nat, prefix: Path, maxBytes: nat)
    requires i < |children| && NamesApart(children[i..])
    ensures EachFits(digest, m, children[i..], prefix, maxBytes)
            <==> Matched(digest, m, children[i], prefix, maxBytes)
                 && EachFits(digest, m, children[i + 1..], prefix, maxBytes)
    ensures NamesApart(children[i + 1..]) && ApartBelow(children[i])
  {
    assert children[i..][1..] == children[i + 1..] && children[i..][0] == children[i];
  }

  lemma MatchedBy(digest: Digest, m: set<Entry>, table: Table, c: Child, prefix: Path, maxBytes: nat)
    requires SetOk(m) && TableOk(m, table)
    ensures c.name !in Listing(table, prefix) ==> !Matched(digest, m, c, prefix, maxBytes)
    ensures c.name in Listing(table, prefix) ==>
              (Matched(digest, m, c, prefix, maxBytes)
               <==> Fits(digest, m, c, Listing(table, prefix)[c.name], maxBytes))
              && Listing(table, prefix)[c.name].path == prefix + [c.name]
  {
    assert SlotOk(m, table, prefix, c.name);
    hide Fits, Expected, TableOk, SetOk;
    ListingIs(m, table, prefix);
    ExpectedIs(m, prefix, c.name);
    if c.name in Listing(table, prefix) {
      var own := Listing(table, prefix)[c.name];
      assert own in m && own.path == prefix + [c.name];
      hide Listing;
      forall e | e in m && e.path == prefix + [c.name]
        ensures e == own
      {
        SamePath(m, e, own);
      }
    }
  }

  method VerifyDirectory(digest: Digest, ghost m: set<Entry>, table: Table, children: seq<Child>, prefix: Path,
                         maxBytes: nat)
      returns (ok: bool)
    requires SetOk(m) && TableOk(m, table) && NamesApart(children)
    ensures ok <==> LevelFits(digest, m, children, prefix, maxBytes)
    decreases children
  {
    hide SetOk, TableOk, NamesApart, EachFits, Expected, Matched, Listing;
    var expected := Listing(table, prefix);
    ListingIs(m, table, prefix);
    assert |expected| == |expected.Keys|;
    if |children| != |expected| {
      return false;
    }
    var seen: set<string> := {};
    assert children[0..] == children;
    for i := 0 to |children|
      invariant NamesApart(children[i..])
      invariant EachFits(digest, m, children, prefix, maxBytes)
                <==> EachFits(digest, m, children[i..], prefix, maxBytes)
      invariant |seen| == i && forall n :: n in seen ==> exists j :: 0 <= j < i && children[j].name == n
    {
      var c := children[i];
      NextChild(digest, m, children, i, prefix, maxBytes);
      MatchedBy(digest, m, table, c, prefix, maxBytes);
      forall j | 0 <= j < i
        ensures children[j].name != c.name
      {
        ApartAt(children, j, i);
      }
      if c.name !in expected || c.name in seen {
        return false;
      }
      seen := seen + {c.name};
      var entry := expected[c.name];
      match c.node {
        case Dir(device, inode, below) =>
          if entry.kind != FolderEntry || device != entry.device || inode != entry.inode {
            return false;
          }
          assert below == c.node.children;
          var fits := VerifyDirectory(digest, m, table, below, entry.path, maxBytes);
          if !fits {
            return false;
          }
        case File(content) =>
          if entry.kind != FileEntry || |content| > maxBytes || digest(content) != entry.hash {
            return false;
          }
        case Special =>
          return false;
      }
    }
    AllChecked(digest, m, children, prefix, maxBytes);
    ok := |seen| == |expected|;
  }

  lemma AllChecked(digest: Digest, m: set<Entry>, children: seq<Child>, prefix: Path, maxBytes: nat)
    ensures EachFits(digest, m, children[|children|..], prefix, maxBytes)
  {
  }

  /** The manifest by path after the first n entries. */
  ghost predicate ByPath(entries: seq<Entry>, n: nat, manifest: map<Path, Entry>)
    requires n <= |entries|
  {
    && (forall p :: p in manifest ==> exists i :: 0 <= i < n && entries[i] == manifest[p] && entries[i].path == p)
    && (forall i :: 0 <= i < n ==> entries[i].path in manifest)
  }

  function AddTo(table: Table, e: Entry): Table
    requires e.path != []
  {
    var parent := e.path[..|e.path| - 1];
    table[parent := Listing(table, parent)[e.path[|e.path| - 1] := e]]
  }

  lemma AddKeeps(m: set<Entry>, table: Table, e: Entry)
    requires TableOk(m, table) && e.path != []
    ensures TableOk(m + {e}, AddTo(table, e))
  {
    hide AddTo;
    var after := AddTo(table, e);
    ListedItself(table, e);
    forall p, x
      ensures SlotOk(m + {e}, after, p, x)
    {
      if p in after && x in after[p] {
        AddedEntry(table, e, p, x);
        assert SlotOk(m, table, p, x);
      }
    }
    forall o | o in m + {e} && o.path != []
      ensures o.path[..|o.path| - 1] in after && o.path[|o.path| - 1] in after[o.path[..|o.path| - 1]]
    {
      if o in m {
        StillListed(table, e, o.path[..|o.path| - 1], o.path[|o.path| - 1]);
      }
    }
  }

  lemma ListedItself(table: Table, e: Entry)
    requires e.path != []
    ensures e.path[..|e.path| - 1] in AddTo(table, e) && e.path[|e.path| - 1] in AddTo(table, e)[e.path[..|e.path| - 1]]
  {
  }

  lemma AddedEntry(table: Table, e: Entry, p: Path, x: string)
    requires e.path != [] && p in AddTo(table, e) && x in AddTo(table, e)[p]
    ensures var after := AddTo(table, e);
            (after[p][x] == e && e.path == p + [x]) || (p in table && x in table[p] && after[p][x] == table[p][x])
  {
    var parent, n := e.path[..|e.path| - 1], e.path[|e.path| - 1];
    assert parent + [n] == e.path;
    if p == parent && x != n {
      assert x in Listing(table, parent);
    }
  }

  lemma StillListed(table: Table, e: Entry, p: Path, x: string)
    requires e.path != [] && p in table && x in table[p]
    ensures p in AddTo(table, e) && x in AddTo(table, e)[p]
  {
  }

  /** The manifest checks, and the children table they build. */
  method CheckManifest(entries: seq<Entry>) returns (ok: bool, table: Table)
    ensures ok <==> ManifestOk(entries)
    ensures ok ==> TableOk(EntrySet(entries), table)
  {
    hide EntryOk, TableOk, ParentListed, ByPath;
    var manifest: map<Path, Entry> := map[];
    table := map[];
    EmptyTable(entries);
    for n := 0 to |entries|
      invariant forall i :: 0 <= i < n ==> EntryOk(entries[i])
      invariant forall i, j :: 0 <= i < j < n ==> entries[i].path != entries[j].path
      invariant ByPath(entries, n, manifest)
      invariant TableOk(EntrySet(entries[..n]), table)
    {
      var e := entries[n];
      if !EntryOk(e) {
        return false, table;
      }
      if e.path in manifest {
        Duplicate(entries, n, manifest);
        return false, table;
      }
      NonEmptyPath(e);
      AddKeeps(EntrySet(entries[..n]), table, e);
      assert EntrySet(entries[..n + 1]) == EntrySet(entries[..n]) + {e};
      NextByPath(entries, n, manifest);
      manifest := manifest[e.path := e];
      table := AddTo(table, e);
    }
    assert entries[..|entries|] == entries;
    for n := 0 to |entries|
      invariant forall i :: 0 <= i < n ==> ParentListed(entries, i)
    {
      var path := entries[n].path;
      if |path| > 1 {
        var parent := path[..|path| - 1];
        if parent !in manifest || manifest[parent].kind != FolderEntry {
          NoParent(entries, n, manifest);
          return false, table;
        }
        ParentFound(entries, n, manifest);
      } else {
        AtRoot(entries, n);
      }
    }
    ok := true;
  }

  lemma NonEmptyPath(e: Entry)
    requires EntryOk(e)
    ensures e.path != []
  {
  }

  lemma NextByPath(entries: seq<Entry>, n: nat, manifest: map<Path, Entry>)
    requires n < |entries| && ByPath(entries, n, manifest) && entries[n].path !in manifest
    ensures ByPath(entries, n + 1, manifest[entries[n].path := entries[n]])
    ensures forall i :: 0 <= i < n ==> entries[i].path != entries[n].path
  {
    var after := manifest[entries[n].path := entries[n]];
    forall p | p in after
      ensures exists i :: 0 <= i < n + 1 && entries[i] == after[p] && entries[i].path == p
    {
      if p == entries[n].path {
        assert entries[n] == after[p];
      } else {
        var i :| 0 <= i < n && entries[i] == manifest[p] && entries[i].path == p;
      }
    }
  }

  lemma EmptyTable(entries: seq<Entry>)
    ensures TableOk(EntrySet(entries[..0]), map[]) && ByPath(entries, 0, map[])
  {
  }

  lemma Duplicate(entries: seq<Entry>, n: nat, manifest: map<Path, Entry>)
    requires n < |entries| && ByPath(entries, n, manifest) && entries[n].path in manifest
    ensures !ManifestOk(entries)
  {
    hide EntryOk, ParentListed;
    var i :| 0 <= i < n && entries[i] == manifest[entries[n].path] && entries[i].path == entries[n].path;
  }

  lemma AtRoot(entries: seq<Entry>, n: nat)
    requires n < |entries| && |entries[n].path| <= 1
    ensures ParentListed(entries, n)
  {
  }

  lemma ParentFound(entries: seq<Entry>, n: nat, manifest: map<Path, Entry>)
    requires n < |entries| && ByPath(entries, |entries|, manifest) && |entries[n].path| > 1
    requires var parent := entries[n].path[..|entries[n].path| - 1];
             parent in manifest && manifest[parent].kind == FolderEntry
    ensures ParentListed(entries, n)
  {
    var parent := entries[n].path[..|entries[n].path| - 1];
    var j :| 0 <= j < |entries| && entries[j] == manifest[parent] && entries[j].path == parent;
  }

  lemma NoParent(entries: seq<Entry>, n: nat, manifest: map<Path, Entry>)
    requires n < |entries| && ByPath(entries, |entries|, manifest) && |entries[n].path| > 1
    requires forall i, j :: 0 <= i < j < |entries| ==> entries[i].path != entries[j].path
    requires var parent := entries[n].path[..|entries[n].path| - 1];
             parent !in manifest || manifest[parent].kind != FolderEntry
    ensures !ParentListed(entries, n)
  {
    var parent := entries[n].path[..|entries[n].path| - 1];
    forall j | 0 <= j < |entries| && entries[j].path == parent
      ensures entries[j].kind != FolderEntry
    {
      assert entries[j].path in manifest;
      var i :| 0 <= i < |entries| && entries[i] == manifest[parent] && entries[i].path == parent;
      assert i == j;
    }
  }

  /** The whole check accepts exactly a well-formed manifest of exactly the descendants on disk: same paths, kinds,
      folder identities and file contents, nothing missing, nothing extra, nothing over the size bound. */
  method VerifySubtreeExpected(digest: Digest, root: Node, device: nat, inode: nat, entries: seq<Entry>, maxBytes: nat)
    returns (ok: bool)
    requires root.Dir? ==> NamesApart(root.children)
    ensures ok <==>
      && device != 0 && inode != 0 && maxBytes < MAX_INT64 && ManifestOk(entries)
      && root.Dir? && root.device == device && root.inode == inode
      && Plain(root.children, maxBytes) && OnDisk(digest, root.children, []) == EntrySet(entries)
  {
    if device == 0 || inode == 0 || maxBytes >= MAX_INT64 {
      return false;
    }
    hide ManifestOk, Plain, OnDisk, NamesApart, LevelFits;
    var manifestOk, table := CheckManifest(entries);
    if !manifestOk || !root.Dir? || root.device != device || root.inode != inode {
      return false;
    }
    ManifestSet(entries);
    ok := VerifyDirectory(digest, EntrySet(entries), table, root.children, [], maxBytes);
    LevelIff(digest, EntrySet(entries), root.children, [], maxBytes);
    AllBelowRoot(EntrySet(entries));
  }

  lemma AllBelowRoot(m: set<Entry>)
    requires SetOk(m)
    ensures Below(m, []) == m
  {
  }
}
