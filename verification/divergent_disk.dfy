/** The files of a diverged folder's recovery: its tree moves aside and gets new note identities, its originals are
    staged for republication. Every filesystem call is a step of its own, and what it leaves when it is cut short is
    part of the disk. */
module DivergentDisk {
  import opened Ids
  import opened Naming
  import opened Optional

  /** A note's bytes; equal hashes mean equal bytes. */
  type Content = seq<Byte>

  /** A note the server knows: its bytes before and after it gets its new identity. */
  datatype KnownNote = KnownNote(source: Uuid, recovered: Uuid, original: Content, rekeyed: Content)

  datatype Entry = FolderEntry(path: Path) | NoteEntry(path: Path)

  /** The server-known members in manifest order, what each known note holds, and the notes known only here. */
  datatype Plan = Plan(order: seq<Entry>, known: map<Path, KnownNote>, locals: map<Path, Content>)

  /** The frontmatter library: reading a note's identity and replacing it. */
  datatype Frontmatter = Frontmatter(ident: Content -> Uuid, rekey: (Content, Uuid, Uuid) -> Option<Content>)

  datatype Phase = Prepared | Evacuated | CanonicalPrepared | CanonicalPublished | Completed

  /** Where the folder is: where the refused move put it, under the hidden name a folder move gives it in between, or
      aside. */
  datatype Place = Attempted | Hidden | Aside

  /** The stage directory: not there, there without its complete nonce marker, marked, or published and its marker
      removed. */
  datatype Mark = Missing | Unmarked | Marked | Cleaned

  /** The notes of the moved tree, and how many hidden files its writes left behind. */
  datatype Tree = Tree(notes: map<Path, Content>, litter: nat)

  /** The stage: its marker, its notes and folders, and how many temporary files were left behind. */
  datatype Stage = Stage(mark: Mark, notes: map<Path, Content>, dirs: set<Path>, stray: nat)

  /** What is durable: the moved tree and where it is, the stage and whether it was renamed to the canonical place, the
      recorded phase. */
  datatype Disk = Disk(tree: Tree, place: Place, stage: Stage, published: bool, phase: Phase)

  // ---------------------------------------------------------------- faults

  /** The calls of the recovery. A check reads or verifies, or leaves the same disk whether it works or not. The others,
      in order: those that make the stage directory, those that move the folder, those that put a note into the stage,
      those that replace a note of the tree, and those that take a failed replacement back. */
  datatype Call =
    | Check
    | MakeStage | SyncStage | WriteMarker | MakeFolder
    | HideFolder | SyncHidden | VerifyHidden | UnhideFolder | OpenTarget | PublishFolder
    | CreateTemp | WriteTemp | LinkNote | SyncNote | RemoveTemp
    | CreateHold | CloseHold | Displace | RemoveHold | ReadHeld | CreateNew | WriteNew | LinkNew | SyncNew | DropHeld
      | DropNew
    | PutBack | SyncBack | DropBack | DropAgain
    | RenameStage | RemoveMarker | RecordPhase

  /** What a call does: work, fail with an error, or never return. */
  datatype Event = Go | Fail | Crash

  /** A coming fault: it strikes the call of its kind after so many of them went well. */
  datatype Fault = Fault(call: Call, skip: nat, event: Event)

  datatype Outcome = Done | Failed | Crashed

  function Ended(e: Event): Outcome {
    if e == Crash then Crashed else Failed
  }

  /** The faults after which something is left halfway: the folder under its hidden name, a stage without its marker, a
      hidden file beside a note, or a note without its name. */
  predicate Perilous(c: Call, e: Event) {
    e != Go && Grave(c, e == Crash)
  }

  predicate Grave(c: Call, crash: bool) {
    || c.SyncStage? || c.WriteMarker? || c.SyncHidden? || c.UnhideFolder? || c.OpenTarget? || c.PublishFolder?
    || c.RemoveTemp? || c.CloseHold? || c.RemoveHold? || c.SyncNew? || c.DropHeld? || c.DropNew? || c.PutBack?
    || c.DropAgain?
    || (crash && Halfway(c))
  }

  predicate Halfway(c: Call) {
    || c.VerifyHidden? || c.WriteTemp? || c.LinkNote? || c.SyncNote? || c.Displace? || c.ReadHeld? || c.CreateNew?
    || c.WriteNew?
    || c.LinkNew? || c.SyncBack? || c.DropBack?
  }

  lemma GraveMoves()
    ensures Grave(SyncHidden, false) && Grave(SyncHidden, true) && Grave(UnhideFolder, false)
            && Grave(UnhideFolder, true)
    ensures Grave(OpenTarget, false) && Grave(OpenTarget, true) && Grave(PublishFolder, false)
            && Grave(PublishFolder, true)
    ensures !Grave(VerifyHidden, false) && Grave(VerifyHidden, true)
    ensures !Grave(Check, false) && !Grave(Check, true) && !Grave(HideFolder, false) && !Grave(HideFolder, true)
  {
  }

  lemma GraveCheck()
    ensures !Grave(Check, false) && !Grave(Check, true) && !Grave(RecordPhase, false) && !Grave(RecordPhase, true)
    ensures !Grave(RenameStage, false) && !Grave(RenameStage, true) && !Grave(RemoveMarker, false)
            && !Grave(RemoveMarker, true)
  {
  }

  lemma GraveStage()
    ensures Grave(SyncStage, false) && Grave(SyncStage, true) && Grave(WriteMarker, false) && Grave(WriteMarker, true)
    ensures !Grave(Check, false) && !Grave(Check, true) && !Grave(MakeStage, false) && !Grave(MakeStage, true)
    ensures !Grave(MakeFolder, false) && !Grave(MakeFolder, true)
  {
  }

  lemma GraveCreate()
    ensures !Grave(CreateTemp, false) && !Grave(CreateTemp, true) && Grave(RemoveTemp, false) && Grave(RemoveTemp, true)
    ensures !Grave(WriteTemp, false) && Grave(WriteTemp, true) && !Grave(LinkNote, false) && Grave(LinkNote, true)
    ensures !Grave(SyncNote, false) && Grave(SyncNote, true)
  {
  }

  lemma GraveHold()
    ensures !Grave(CreateHold, false) && !Grave(CreateHold, true) && Grave(CloseHold, false) && Grave(CloseHold, true)
    ensures !Grave(Displace, false) && Grave(Displace, true) && Grave(RemoveHold, false) && Grave(RemoveHold, true)
  {
  }

  lemma GraveReplace()
    ensures !Grave(ReadHeld, false) && Grave(ReadHeld, true) && !Grave(CreateNew, false) && Grave(CreateNew, true)
    ensures !Grave(WriteNew, false) && Grave(WriteNew, true) && !Grave(LinkNew, false) && Grave(LinkNew, true)
    ensures Grave(SyncNew, false) && Grave(SyncNew, true) && Grave(DropHeld, false) && Grave(DropHeld, true)
    ensures Grave(DropNew, false) && Grave(DropNew, true)
  {
  }

  lemma GraveUndo()
    ensures Grave(PutBack, false) && Grave(PutBack, true) && !Grave(SyncBack, false) && Grave(SyncBack, true)
    ensures !Grave(DropBack, false) && Grave(DropBack, true) && Grave(DropAgain, false) && Grave(DropAgain, true)
  {
  }

  /** How many of the coming faults are perilous. */
  function Perils(faults: seq<Fault>): nat {
    if faults == [] then 0 else (if Perilous(faults[0].call, faults[0].event) then 1 else 0) + Perils(faults[1..])
  }

  /** What the next call does, and the faults still to come. */
  function Struck(faults: seq<Fault>, c: Call): (Event, seq<Fault>) {
    if faults == [] || faults[0].call != c then (Go, faults)
    else if faults[0].skip > 0 then (Go, [faults[0].(skip := faults[0].skip - 1)] + faults[1..])
    else (faults[0].event, faults[1..])
  }

  predicate NoCrash(faults: seq<Fault>) {
    forall i :: 0 <= i < |faults| ==> faults[i].event != Crash
  }

  lemma StruckAlive(faults: seq<Fault>, c: Call)
    requires NoCrash(faults)
    ensures Struck(faults, c).0 != Crash && NoCrash(Struck(faults, c).1)
  {
  }

  /** The coming fault strikes the rename that publishes the folder, or the writing of the marker. */
  predicate CutsMove(faults: seq<Fault>) {
    faults != [] && faults[0].call == PublishFolder && faults[0].skip == 0 && faults[0].event != Go
  }

  predicate CutsMarker(faults: seq<Fault>) {
    faults != [] && faults[0].call == WriteMarker && faults[0].skip == 0 && faults[0].event != Go
  }

  lemma StruckPerils(faults: seq<Fault>, c: Call)
    ensures Perils(faults) == Perils(Struck(faults, c).1) + if Perilous(c, Struck(faults, c).0) then 1 else 0
  {
    hide Grave;
    if faults != [] && faults[0].call == c && faults[0].skip > 0 {
      assert ([faults[0].(skip := faults[0].skip - 1)] + faults[1..])[1..] == faults[1..];
    }
  }

  // ---------------------------------------------------------------- the plan

  predicate NoteOk(x: Frontmatter, n: KnownNote) {
    && n.source != n.recovered && x.ident(n.original) == n.source && x.ident(n.rekeyed) == n.recovered
    && x.rekey(n.original, n.source, n.recovered) == Some(n.rekeyed)
  }

  /** What planning established: the order lists the known notes, and each was inspected and rekeyed. */
  ghost predicate PlanOk(x: Frontmatter, man: Plan) {
    && (forall p :: p in man.known <==> NoteEntry(p) in man.order)
    && (forall p :: p in man.known ==> p !in man.locals && NoteOk(x, man.known[p]))
  }

  function Originals(man: Plan): map<Path, Content> {
    map p | p in man.known :: man.known[p].original
  }

  /** The tree as it was. */
  function SourceTree(man: Plan): map<Path, Content> {
    man.locals + Originals(man)
  }

  /** The tree with every known note under its new identity. */
  function RecoveredTree(man: Plan): map<Path, Content> {
    man.locals + map p | p in man.known :: man.known[p].rekeyed
  }

  function FolderPaths(man: Plan, n: nat): set<Path>
    requires n <= |man.order|
  {
    if n == 0 then {}
    else FolderPaths(man, n - 1) + (if man.order[n - 1].FolderEntry? then {man.order[n - 1].path} else {})
  }

  function Folders(man: Plan): set<Path> {
    FolderPaths(man, |man.order|)
  }

  // ---------------------------------------------------------------- what every crash point keeps

  /** Every known note in the tree is either as it was or under its new identity; everything else is as it was. */
  predicate TreeSound(man: Plan, notes: map<Path, Content>) {
    && notes.Keys <= man.known.Keys + man.locals.Keys
    && (forall p :: p in man.locals && p !in man.known ==> p in notes && notes[p] == man.locals[p])
    && forall p :: p in man.known && p in notes ==>
         notes[p] == man.known[p].original || notes[p] == man.known[p].rekeyed
  }

  /** So it is, with every known note in place. */
  predicate Mixed(man: Plan, notes: map<Path, Content>) {
    TreeSound(man, notes) && man.known.Keys <= notes.Keys
  }

  /** Only originals and the plan's folders are staged, and nothing before there is a stage. */
  ghost predicate StageSound(man: Plan, st: Stage) {
    && (forall p :: p in st.notes ==> p in man.known && st.notes[p] == man.known[p].original)
    && st.dirs <= Folders(man) && (st.mark == Missing ==> st == Stage(Missing, map[], {}, 0))
  }

  /** No known note's original bytes are lost. */
  ghost predicate OriginalsKept(man: Plan, d: Disk) {
    forall p :: p in man.known ==>
      (p in d.tree.notes && d.tree.notes[p] == man.known[p].original)
          || (p in d.stage.notes && d.stage.notes[p] == man.known[p].original)
  }

  /** The stage holds every original and every folder, its marker, and nothing else. */
  ghost predicate StageWhole(man: Plan, st: Stage) {
    st == Stage(Marked, Originals(man), Folders(man), 0)
  }

  function Rank(p: Phase): nat {
    match p
    case Prepared => 0
    case Evacuated => 1
    case CanonicalPrepared => 2
    case CanonicalPublished => 3
    case Completed => 4
  }

  /** The recorded phase is never ahead of the files. */
  ghost predicate PhaseSound(man: Plan, d: Disk) {
    && (d.phase != Prepared ==> d.place == Aside && d.tree == Tree(RecoveredTree(man), 0))
    && (d.phase != Prepared ==>
          StageWhole(man, d.stage) || (StageWhole(man, d.stage.(mark := Marked)) && d.stage.mark == Cleaned))
    && (d.published ==> Rank(d.phase) >= 2) && (Rank(d.phase) >= 3 ==> d.published)
    && (d.stage.mark == Cleaned ==> Rank(d.phase) >= 3) && (d.phase == Completed ==> d.stage.mark == Cleaned)
  }

  ghost predicate Sound(man: Plan, d: Disk) {
    TreeSound(man, d.tree.notes) && StageSound(man, d.stage) && OriginalsKept(man, d) && PhaseSound(man, d)
  }

  ghost predicate AllSound(man: Plan, history: seq<Disk>) {
    forall i :: 0 <= i < |history| ==> Sound(man, history[i])
  }

  /** Something was left in the tree: a hidden file, or a note without its name. */
  ghost predicate TreeBroken(man: Plan, t: Tree) {
    t.litter > 0 || !(man.known.Keys <= t.notes.Keys)
  }

  /** Something was left in the stage: a directory without its marker, or a temporary file. */
  predicate StageBroken(st: Stage) {
    st.mark == Unmarked || st.stray > 0
  }

  /** The tree verifies with every known note as it was or under its new identity. */
  predicate Transition(man: Plan, t: Tree) {
    t.litter == 0 && Mixed(man, t.notes)
  }

  /** What no rerun gets past: the folder in neither place, or something left in the tree or the stage, before the
      evacuation is sealed. */
  ghost predicate Stuck(man: Plan, d: Disk) {
    d.phase == Prepared && (d.place == Hidden || TreeBroken(man, d.tree) || StageBroken(d.stage))
  }

  // ---------------------------------------------------------------- single steps

  lemma OrderedKnown(x: Frontmatter, man: Plan, i: nat)
    requires PlanOk(x, man) && i < |man.order| && man.order[i].NoteEntry?
    ensures man.order[i].path in man.known && NoteOk(x, man.known[man.order[i].path])
  {
    hide NoteOk;
    assert NoteEntry(man.order[i].path) == man.order[i];
    assert man.order[i] in man.order;
  }

  lemma {:induction false} FolderIn(man: Plan, n: nat, i: nat)
    requires i < n <= |man.order| && man.order[i].FolderEntry?
    ensures man.order[i].path in FolderPaths(man, n)
  {
    if i < n - 1 {
      FolderIn(man, n - 1, i);
    }
  }

  /** Whatever becomes of a note of the moved tree, its original stays in the stage. */
  lemma TreeStep(man: Plan, d: Disk, p: Path, c: Option<Content>)
    requires Sound(man, d) && d.phase == Prepared && p in man.known && p in d.stage.notes
    requires c == None || c.value == man.known[p].original || c.value == man.known[p].rekeyed
    ensures Sound(man, d.(tree :=
                          d.tree.(notes := if c == None then d.tree.notes - {p} else d.tree.notes[p := c.value])))
  {
    hide FolderPaths;
  }

  lemma LitterStep(man: Plan, d: Disk, litter: nat)
    requires Sound(man, d) && d.phase == Prepared
    ensures Sound(man, d.(tree := d.tree.(litter := litter)))
  {
    hide FolderPaths;
  }

  lemma StrayStep(man: Plan, d: Disk, stray: nat)
    requires Sound(man, d) && d.phase == Prepared && d.stage.mark != Missing
    ensures Sound(man, d.(stage := d.stage.(stray := stray)))
  {
    hide FolderPaths;
  }

  lemma StageStep(man: Plan, d: Disk, p: Path)
    requires Sound(man, d) && d.phase == Prepared && d.stage.mark != Missing && p in man.known
    ensures Sound(man, d.(stage := d.stage.(notes := d.stage.notes[p := man.known[p].original])))
  {
    hide FolderPaths;
  }

  lemma DirStep(man: Plan, d: Disk, i: nat)
    requires Sound(man, d) && d.phase == Prepared && d.stage.mark != Missing && i < |man.order|
             && man.order[i].FolderEntry?
    ensures Sound(man, d.(stage := d.stage.(dirs := d.stage.dirs + {man.order[i].path})))
  {
    FolderIn(man, |man.order|, i);
    hide FolderPaths;
  }

  lemma MarkStep(man: Plan, d: Disk, mark: Mark)
    requires Sound(man, d) && d.phase == Prepared && (mark == Unmarked || mark == Marked)
    ensures Sound(man, d.(stage := d.stage.(mark := mark)))
  {
    hide FolderPaths;
  }

  lemma PlaceStep(man: Plan, d: Disk, place: Place)
    requires Sound(man, d) && d.phase == Prepared
    ensures Sound(man, d.(place := place))
  {
    hide FolderPaths;
  }

  lemma EvacuatedStep(man: Plan, d: Disk)
    requires Sound(man, d) && d.phase == Prepared && StageWhole(man, d.stage) && d.place == Aside
             && d.tree == Tree(RecoveredTree(man), 0)
    ensures Sound(man, d.(phase := Evacuated))
  {
    hide FolderPaths;
  }

  lemma PreparedStep(man: Plan, d: Disk)
    requires Sound(man, d) && d.phase == Evacuated
    ensures Sound(man, d.(phase := CanonicalPrepared))
  {
    hide FolderPaths;
  }

  lemma PublishStep(man: Plan, d: Disk)
    requires Sound(man, d) && d.phase == CanonicalPrepared
    ensures Sound(man, d.(published := true))
    ensures d.published ==> Sound(man, d.(phase := CanonicalPublished))
  {
    hide FolderPaths;
  }

  lemma CleanStep(man: Plan, d: Disk)
    requires Sound(man, d) && d.phase == CanonicalPublished
    ensures Sound(man, d.(stage := d.stage.(mark := Cleaned)))
    ensures d.stage.mark == Cleaned ==> Sound(man, d.(phase := Completed))
  {
    hide FolderPaths;
  }

  /** A known note on a sound disk, and what is staged of it. */
  lemma KnownAt(man: Plan, d: Disk, p: Path)
    requires Sound(man, d) && p in man.known
    ensures p in d.tree.notes ==> d.tree.notes[p] == man.known[p].original || d.tree.notes[p] == man.known[p].rekeyed
    ensures p in d.stage.notes ==> d.stage.notes[p] == man.known[p].original
    ensures p !in d.stage.notes ==> p in d.tree.notes && d.tree.notes[p] == man.known[p].original && d.phase == Prepared
  {
    hide FolderPaths;
  }

  /** A listed folder on a sound disk. */
  lemma FolderAt(man: Plan, d: Disk, i: nat)
    requires Sound(man, d) && i < |man.order| && man.order[i].FolderEntry? && man.order[i].path !in d.stage.dirs
    ensures d.phase == Prepared
  {
    FolderIn(man, |man.order|, i);
    hide FolderPaths;
  }

  lemma NotesApart(x: Frontmatter, n: KnownNote)
    requires NoteOk(x, n)
    ensures n.original != n.rekeyed && x.ident(n.original) == n.source && x.ident(n.rekeyed) == n.recovered
    ensures x.rekey(n.original, n.source, n.recovered) == Some(n.rekeyed)
  {
  }

  lemma TreeIs(man: Plan, d: Disk)
    requires Sound(man, d)
    ensures TreeSound(man, d.tree.notes) && OriginalsKept(man, d)
    ensures Mixed(man, d.tree.notes) && d.tree.litter == 0 <==> !TreeBroken(man, d.tree)
  {
    hide FolderPaths;
  }

  /** A tree that was verified as the source or as the recovered one is not broken. */
  lemma VerifiedTree(man: Plan, t: Tree)
    requires t.litter == 0 && (t.notes == SourceTree(man) || t.notes == RecoveredTree(man))
    ensures !TreeBroken(man, t)
  {
  }

  lemma WholeStage(man: Plan, st: Stage)
    requires StageWhole(man, st)
    ensures st.notes == Originals(man) && st.dirs == Folders(man) && !StageBroken(st) && st.mark == Marked
  {
    hide FolderPaths;
  }

  lemma PhasesOk(man: Plan, d: Disk)
    requires Sound(man, d)
    ensures d.phase != Prepared ==> d.place == Aside && d.tree == Tree(RecoveredTree(man), 0)
    ensures d.phase != Prepared ==> d.stage == Stage(d.stage.mark, Originals(man), Folders(man), 0)
    ensures d.phase != Prepared ==> if d.stage.mark == Marked then StageWhole(man, d.stage) else d.stage.mark == Cleaned
    ensures d.published ==> Rank(d.phase) >= 2
    ensures Rank(d.phase) >= 3 ==> d.published
    ensures d.stage.mark == Cleaned ==> Rank(d.phase) >= 3
    ensures d.phase == Completed ==> d.stage.mark == Cleaned
    ensures d.stage.mark == Missing ==> d.stage == Stage(Missing, map[], {}, 0)
  {
    hide FolderPaths, TreeSound, OriginalsKept;
  }

  /** The first n entries of the order are in place. */
  ghost predicate NotesAt(man: Plan, n: nat, tree: map<Path, Content>, rekeyed: bool)
    requires n <= |man.order|
  {
    forall i :: 0 <= i < n && man.order[i].NoteEntry? ==>
      man.order[i].path in man.known && man.order[i].path in tree
      && tree[man.order[i].path]
         == (if rekeyed then man.known[man.order[i].path].rekeyed else man.known[man.order[i].path].original)
  }

  lemma NotesNext(man: Plan, n: nat, tree: map<Path, Content>, rekeyed: bool)
    requires n < |man.order| && NotesAt(man, n, tree, rekeyed)
    requires man.order[n].NoteEntry? ==> man.order[n].path in man.known
    ensures man.order[n].FolderEntry? ==> NotesAt(man, n + 1, tree, rekeyed)
    ensures man.order[n].NoteEntry? ==>
      var k := man.known[man.order[n].path];
      NotesAt(man, n + 1, tree[man.order[n].path := if rekeyed then k.rekeyed else k.original], rekeyed)
  {
  }

  lemma NotesHere(man: Plan, n: nat, tree: map<Path, Content>, rekeyed: bool)
    requires n < |man.order| && NotesAt(man, n, tree, rekeyed) && man.order[n].NoteEntry?
             && man.order[n].path in man.known
    requires man.order[n].path in tree
    requires tree[man.order[n].path]
             == (if rekeyed then man.known[man.order[n].path].rekeyed else man.known[man.order[n].path].original)
    ensures NotesAt(man, n + 1, tree, rekeyed)
  {
  }

  /** With every note of the order in place the tree is exactly the recovered, or the original, one. */
  lemma NotesAll(x: Frontmatter, man: Plan, tree: map<Path, Content>, rekeyed: bool)
    requires PlanOk(x, man) && Mixed(man, tree) && NotesAt(man, |man.order|, tree, rekeyed)
    ensures tree == if rekeyed then RecoveredTree(man) else SourceTree(man)
  {
    hide PlanOk, NotesAt;
    forall p | p in man.known
      ensures p in tree && tree[p] == (if rekeyed then man.known[p].rekeyed else man.known[p].original)
    {
      NoteIn(x, man, tree, rekeyed, p);
    }
    var target := if rekeyed then RecoveredTree(man) else SourceTree(man);
    assert tree.Keys == target.Keys;
    assert forall p :: p in tree ==> tree[p] == target[p];
  }

  lemma NoteIn(x: Frontmatter, man: Plan, tree: map<Path, Content>, rekeyed: bool, p: Path)
    requires PlanOk(x, man) && NotesAt(man, |man.order|, tree, rekeyed) && p in man.known
    ensures p in tree && tree[p] == (if rekeyed then man.known[p].rekeyed else man.known[p].original)
  {
    hide NoteOk;
    var i :| 0 <= i < |man.order| && man.order[i] == NoteEntry(p);
  }

  /** The first n entries of the order are staged. */
  ghost predicate StagedAt(man: Plan, n: nat, st: Stage)
    requires n <= |man.order|
  {
    forall i :: 0 <= i < n ==>
      if man.order[i].NoteEntry? then man.order[i].path in st.notes else man.order[i].path in st.dirs
  }

  lemma {:induction false} FoldersWithin(man: Plan, n: nat, st: Stage)
    requires n <= |man.order| && StagedAt(man, n, st)
    ensures FolderPaths(man, n) <= st.dirs
  {
    if n > 0 {
      FoldersWithin(man, n - 1, st);
    }
  }

  /** With the whole order staged the stage is complete. */
  lemma StagedAll(x: Frontmatter, man: Plan, st: Stage)
    requires PlanOk(x, man) && StageSound(man, st) && StagedAt(man, |man.order|, st)
    ensures st.notes == Originals(man) && st.dirs == Folders(man)
  {
    FoldersWithin(man, |man.order|, st);
    hide NoteOk, FolderPaths;
    forall p | p in man.known
      ensures p in st.notes
    {
      assert NoteEntry(p) in man.order;
      var i :| 0 <= i < |man.order| && man.order[i] == NoteEntry(p);
    }
    assert st.notes.Keys == man.known.Keys;
  }

  lemma NothingStaged(man: Plan, st: Stage)
    ensures StagedAt(man, 0, st)
  {
  }

  lemma StagedNext(man: Plan, n: nat, st: Stage, c: Content)
    requires n < |man.order| && StagedAt(man, n, st)
    ensures man.order[n].FolderEntry? ==> StagedAt(man, n + 1, st.(dirs := st.dirs + {man.order[n].path}))
    ensures man.order[n].FolderEntry? && man.order[n].path in st.dirs ==> StagedAt(man, n + 1, st)
    ensures man.order[n].NoteEntry? ==> StagedAt(man, n + 1, st.(notes := st.notes[man.order[n].path := c]))
    ensures man.order[n].NoteEntry? && man.order[n].path in st.notes ==> StagedAt(man, n + 1, st)
  {
  }

  lemma NoNotes(man: Plan, tree: map<Path, Content>, rekeyed: bool)
    ensures NotesAt(man, 0, tree, rekeyed)
  {
  }

  lemma OriginalStaged(man: Plan, p: Path)
    requires p in man.known
    ensures p in Originals(man) && Originals(man)[p] == man.known[p].original
  {
  }

  lemma StagedStray(man: Plan, n: nat, st: Stage, from: Stage)
    requires n <= |man.order| && st.notes == from.notes && st.dirs == from.dirs
    ensures StagedAt(man, n, st) == StagedAt(man, n, from)
  {
  }

  lemma AllStaged(x: Frontmatter, man: Plan, d: Disk)
    requires PlanOk(x, man) && Sound(man, d) && StagedAt(man, |man.order|, d.stage) && d.stage.mark == Marked
             && d.stage.stray == 0
    ensures StageWhole(man, d.stage)
  {
    StagedAll(x, man, d.stage);
  }

  /** Writes only ever add hidden files and take names away. */
  predicate Worn(from: Tree, to: Tree) {
    from.litter <= to.litter && to.notes.Keys <= from.notes.Keys
  }

  predicate Unharmed(from: Tree, to: Tree) {
    from.litter == to.litter && to.notes.Keys == from.notes.Keys
  }

  lemma WornTwice(a: Tree, b: Tree, c: Tree)
    requires Worn(a, b) && Worn(b, c)
    ensures Worn(a, c) && (Unharmed(a, c) <==> Unharmed(a, b) && Unharmed(b, c))
  {
  }

  lemma Harm(man: Plan, from: Tree, to: Tree)
    requires TreeSound(man, from.notes) && TreeSound(man, to.notes) && Worn(from, to)
    ensures TreeBroken(man, to) <==> TreeBroken(man, from) || !Unharmed(from, to)
  {
    if !TreeBroken(man, from) && !TreeBroken(man, to) {
      assert to.notes.Keys == from.notes.Keys;
    }
  }

  lemma NoWear(t: Tree)
    ensures Worn(t, t) && Unharmed(t, t)
  {
  }

  lemma NoteWear(from: Tree, to: Tree, p: Path, c: Content)
    requires p in from.notes && from.litter <= to.litter
    requires to.notes == from.notes || to.notes == from.notes - {p} || to.notes == from.notes[p := c]
    ensures Worn(from, to) && (Unharmed(from, to) <==> to.litter == from.litter && p in to.notes)
  {
    assert from.notes[p := c].Keys == from.notes.Keys;
    if p in to.notes {
      assert to.notes.Keys == from.notes.Keys;
    }
  }

  lemma NameLost(x: Frontmatter, man: Plan, from: Tree, to: Tree, i: nat)
    requires PlanOk(x, man) && i < |man.order| && man.order[i].NoteEntry? && man.order[i].path !in to.notes
             && !TreeBroken(man, from)
    ensures !Unharmed(from, to)
  {
    OrderedKnown(x, man, i);
    hide PlanOk;
    assert man.order[i].path in from.notes.Keys;
  }

  lemma StuckIs(man: Plan, d: Disk)
    ensures d.phase == Prepared ==>
              (Stuck(man, d) <==> d.place == Hidden || TreeBroken(man, d.tree) || StageBroken(d.stage))
    ensures d.phase != Prepared ==> !Stuck(man, d)
  {
    hide TreeBroken, StageBroken;
  }

  /** Where a recovery that was just prepared starts. */
  function Start(man: Plan): Disk {
    Disk(Tree(SourceTree(man), 0), Attempted, Stage(Missing, map[], {}, 0), false, Prepared)
  }

  /** Where it ends: the tree aside under its new identities, the originals published, and nothing else. */
  function Recovered(man: Plan): Disk {
    Disk(Tree(RecoveredTree(man), 0), Aside, Stage(Cleaned, Originals(man), Folders(man), 0), true, Completed)
  }

  lemma StartSound(x: Frontmatter, man: Plan)
    requires PlanOk(x, man)
    ensures Sound(man, Start(man)) && !Stuck(man, Start(man))
  {
    hide NoteOk, FolderPaths;
  }

  lemma RecoveredFree(man: Plan)
    ensures !Stuck(man, Recovered(man))
  {
    hide Originals, Folders, RecoveredTree;
  }
}
