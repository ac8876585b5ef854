/** A divergent recovery that ends after somebody queued an operation behind one it retires. */
module DivergentLate {
  import opened Ids
  import opened Naming
  import opened Optional
  import opened Outbox
  import opened OutboxProgress
  import opened OutboxReplace
  import opened RecursiveRecovery
  import opened RecursiveReplacement
  import opened DivergentPlan
  import opened DivergentReplacement
  import opened DivergentTransaction
  import opened DivergentStale

  function ObjectNo(n: nat): Uuid {
    0x8000_0000_0000_0000 + n
  }

  function OperationNo(n: nat): Uuid {
    0x7000_8000_0000_0000_0000 + n
  }

  lemma NumbersValid(n: nat)
    requires n < 10
    ensures ValidObjectId(ObjectNo(n)) && ValidOperationId(OperationNo(n))
  {
  }

  /** A subfolder the server knows, and one it does not. */
  function KnownFolder(): TreeMember {
    TreeMember(ObjectNo(3), ObjectNo(4), ObjectNo(1), ObjectNo(2), OperationNo(3), OperationNo(4), ObjectType.Folder,
               "k", ["k"], 1, 1, 1, 1,
               [], [], [], [])
  }

  function LocalFolder(): TreeMember {
    TreeMember(ObjectNo(5), ObjectNo(5), ObjectNo(1), ObjectNo(2), OperationNo(5), OperationNo(6), ObjectType.Folder,
               "l", ["l"], 1, 0, 1, 2,
               [], [], [], [])
  }

  function TwoFolders(): TreeManifest {
    TreeManifest(OperationNo(1), OperationNo(2), [KnownFolder(), LocalFolder()])
  }

  function FolderCreated(n: nat, op: nat, parent: Uuid, name: string, dependency: Option<Uuid>): Mutation {
    Mutation(OperationNo(op), Create, ObjectNo(n), ObjectType.Folder, 0, Some(parent), name, [], dependency, [])
  }

  /** The outbox the plan was made from, with the create of a folder queued since: it waits for the create that will be
      retired. */
  function LaterQueued(): State {
    State([Row(FolderCreated(5, 5, ObjectNo(1), "l", None), Pending),
           Row(FolderCreated(7, 7, ObjectNo(5), "m", Some(OperationNo(5))), Pending)],
          map[ObjectNo(1) := 1, ObjectNo(3) := 1], {}, map[])
  }

  lemma FolderCreatedValid(n: nat, op: nat, parent: Uuid, c: char, dependency: Option<Uuid>)
    requires n < 10 && op < 10 && ValidObjectId(parent) && 'a' <= c <= 'z'
    requires dependency == None || (ValidOperationId(dependency.value) && dependency.value != OperationNo(op))
    ensures ValidMutation(FolderCreated(n, op, parent, [c], dependency))
    ensures Deps(FolderCreated(n, op, parent, [c], dependency)) == if dependency == None then {} else {dependency.value}
  {
    NumbersValid(n);
    NumbersValid(op);
    SingleLetter(c);
    hide ValidComponent, ValidOperationId, ValidObjectId, ObjectNo, OperationNo;
  }

  lemma FolderMemberOk(m: TreeMember, c: char)
    requires (m == KnownFolder() && c == 'k') || (m == LocalFolder() && c == 'l')
    ensures TreeMemberOk(m)
  {
    NumbersValid(1);
    NumbersValid(2);
    NumbersValid(3);
    NumbersValid(4);
    NumbersValid(5);
    NumbersValid(6);
    SingleLetter(c);
    ShortPath(c);
    hide ValidComponent, ValidOperationId, ValidObjectId, ValidRelative;
  }

  lemma ShortPath(c: char)
    requires 'a' <= c <= 'z'
    ensures ValidRelative([[c]])
  {
    SingleLetter(c);
    assert Utf8Length([c]) == 1 by { assert [c][1..] == ""; }
    hide ValidComponent, Utf8Length;
  }

  lemma TwoFoldersShape()
    ensures TreeShape(TwoFolders(), ObjectNo(2))
  {
    FolderMemberOk(KnownFolder(), 'k');
    FolderMemberOk(LocalFolder(), 'l');
    NumbersValid(1);
    NumbersValid(2);
    hide TreeMemberOk, ValidOperationId, ValidObjectId;
    assert MemberFits(TwoFolders(), ObjectNo(2), 0) && MemberFits(TwoFolders(), ObjectNo(2), 1);
  }

  lemma TwoFoldersRetire()
    ensures LocalOps(TwoFolders().members, 2) == {OperationNo(5)}
    ensures TreeCreates(TwoFolders(), ObjectNo(2), "r", 2) ==
      [FolderCreated(2, 2, CONFLICT_RECOVERED, "r", None), FolderCreated(4, 4, ObjectNo(2), "k", Some(OperationNo(2))),
       FolderCreated(5, 6, ObjectNo(2), "l", Some(OperationNo(2)))]
  {
    var man := TwoFolders();
    assert ChainOps([]) == {};
    assert Retiring(KnownFolder()) == {} && Retiring(LocalFolder()) == {OperationNo(5)};
    assert LocalOps(man.members, 0) == {} && LocalOps(man.members, 1) == {};
    assert TreeCreates(man, ObjectNo(2), "r", 0) == [TreeRoot(man, ObjectNo(2), "r")];
    assert TreeCreates(man, ObjectNo(2), "r", 1) == [TreeRoot(man, ObjectNo(2), "r"), TreeCreate(man, KnownFolder())];
  }

  lemma LaterSound()
    ensures WellFormed(LaterQueued()) && RowsValid(LaterQueued()) && NoneStranded(LaterQueued())
  {
    NumbersValid(1);
    NumbersValid(5);
    FolderCreatedValid(5, 5, ObjectNo(1), 'l', None);
    FolderCreatedValid(7, 7, ObjectNo(5), 'm', Some(OperationNo(5)));
    hide ValidMutation, Deps, ValidOperationId, ValidObjectId;
    var t := LaterQueued();
    assert HasOp(t, 1, OperationNo(5)) by { assert t.rows[0].m.op == OperationNo(5); }
  }

  /** Everything the transaction asks of the outbox holds; it ends with an operation waiting for a superseded one. */
  lemma LaterLeftBehind()
    ensures var t, full, gone := LaterQueued(), TwoFolders(), LocalOps(TwoFolders().members, 2);
            var b := EnqueueAll(Running(Marked(t, gone), {}), TreeCreates(full, ObjectNo(2), "r", 2));
            && TreeShape(full, ObjectNo(2)) && RowsValid(t) && WellFormed(t) && NoneStranded(t) && PendingOps(t, gone)
            && b.Running? && !NoneStranded(b.s)
  {
    var t, full := LaterQueued(), TwoFolders();
    var gone, ms := LocalOps(full.members, 2), TreeCreates(full, ObjectNo(2), "r", 2);
    LaterSound();
    TwoFoldersShape();
    TwoFoldersRetire();
    AllCreatable(Marked(t, gone), ms);
    LaterLeft(t, gone, ms);
    hide *;
    assert |full.members| == 2 by { TwoMembers(); }
    StaleTransaction(t, full, ObjectNo(2), "r");
  }

  lemma TwoMembers()
    ensures |TwoFolders().members| == 2
  {
  }

  lemma OneCreatable(s: State, m: Mutation)
    requires ValidMutation(m) && m.obj !in s.baselines && |s.rows| == 2 && s.rows[0].m.op != m.op
             && s.rows[1].m.op != m.op
    requires forall j :: 0 <= j < 2 && s.rows[j].m.obj == m.obj ==> s.rows[j].status == Superseded
    ensures CanCreate(s, m)
  {
    hide ValidMutation;
    assert Count(s, m.obj, 0) == 0 && Count(s, m.obj, 1) == 0 && Count(s, m.obj, 2) == 0;
  }

  lemma MarkedLater()
    ensures var s := Marked(LaterQueued(), {OperationNo(5)});
      s.rows == [Row(LaterQueued().rows[0].m, Superseded), LaterQueued().rows[1]]
          && s.baselines == map[ObjectNo(1) := 1, ObjectNo(3) := 1]
  {
  }

  lemma CreatableHere(n: nat, op: nat, parent: Uuid, c: char, dependency: Option<Uuid>)
    requires n in {2, 4, 5} && op in {2, 4, 6} && ValidObjectId(parent) && 'a' <= c <= 'z'
    requires dependency == None || (ValidOperationId(dependency.value) && dependency.value != OperationNo(op))
    ensures CanCreate(Marked(LaterQueued(), {OperationNo(5)}), FolderCreated(n, op, parent, [c], dependency))
  {
    FolderCreatedValid(n, op, parent, c, dependency);
    MarkedLater();
    hide ValidMutation, Deps, ValidObjectId, ValidOperationId, CanCreate, Marked;
    OneCreatable(Marked(LaterQueued(), {OperationNo(5)}), FolderCreated(n, op, parent, [c], dependency));
  }

  lemma AllCreatable(s: State, ms: seq<Mutation>)
    requires s == Marked(LaterQueued(), {OperationNo(5)})
    requires ms == [FolderCreated(2, 2, CONFLICT_RECOVERED, "r", None),
                    FolderCreated(4, 4, ObjectNo(2), "k", Some(OperationNo(2))),
                    FolderCreated(5, 6, ObjectNo(2), "l", Some(OperationNo(2)))]
    ensures CanCreateAll(s, ms) && PendingOps(LaterQueued(), {OperationNo(5)})
  {
    hide *;
    ConflictIdValid();
    NumbersValid(2);
    OtherNumbers();
    PendingLater();
    CreatableHere(2, 2, CONFLICT_RECOVERED, 'r', None);
    CreatableHere(4, 4, ObjectNo(2), 'k', Some(OperationNo(2)));
    CreatableHere(5, 6, ObjectNo(2), 'l', Some(OperationNo(2)));
    ThreeCreatable(s, ms);
  }

  lemma OtherNumbers()
    ensures OperationNo(2) != OperationNo(4) && OperationNo(2) != OperationNo(6)
  {
  }

  lemma PendingLater()
    ensures PendingOps(LaterQueued(), {OperationNo(5)})
  {
  }

  lemma ThreeCreatable(s: State, ms: seq<Mutation>)
    requires |ms| == 3 && CanCreate(s, ms[0]) && CanCreate(s, ms[1]) && CanCreate(s, ms[2])
    ensures CanCreateAll(s, ms)
  {
    hide CanCreate;
  }

  lemma LaterLeft(t: State, gone: set<Uuid>, ms: seq<Mutation>)
    requires t == LaterQueued() && gone == {OperationNo(5)}
    requires ms == [FolderCreated(2, 2, CONFLICT_RECOVERED, "r", None),
                    FolderCreated(4, 4, ObjectNo(2), "k", Some(OperationNo(2))),
                    FolderCreated(5, 6, ObjectNo(2), "l", Some(OperationNo(2)))]
    ensures LeavesBehind(t, gone, ms)
  {
    NumbersValid(5);
    FolderCreatedValid(7, 7, ObjectNo(5), 'm', Some(OperationNo(5)));
    hide ValidMutation, Deps, ValidObjectId, ValidOperationId;
    assert OperationNo(5) in Deps(t.rows[1].m);
    assert LeftBehind(t, gone, ms, 1);
  }
}
