/** The creates that replace a recursively recovered tree carry bytes that are staged. */
module BlobTree {
  import opened Ids
  import opened Outbox
  import B = BlobCleanup
  import opened RecursiveRecovery
  import opened RecursiveReplacement

  lemma MemberBytes(s: State, man: Manifest, root: Uuid, m: Member)
    requires MemberQueued(s, man, root, m) && m.otype == Note
    ensures B.OpenBytes(s, m.finalBlob)
  {
    var i := FinalRow(s, man, root, m);
    hide CountOf, IndexOf, Dependency, Deps, Previous;
    assert B.Active(s.rows[i].status) && B.CarriesBlob(s.rows[i].m);
  }

  lemma CopiesNext(s: State, ms: seq<Mutation>, m: Mutation)
    requires B.CopiesOpen(s, ms) && (B.CarriesBlob(m) ==> B.OpenBytes(s, m.blob))
    ensures B.CopiesOpen(s, ms + [m])
  {
    hide B.OpenBytes, B.CarriesBlob;
  }

  lemma ReplacementIs(man: Manifest, recovered: Uuid, rootName: string, n: nat)
    requires 0 < n <= |man.members|
    ensures Replacements(man, recovered, rootName, n)
      == Replacements(man, recovered, rootName, n - 1) + [Replacement(man, recovered, man.members[n - 1])]
    ensures var m, c := man.members[n - 1], Replacement(man, recovered, man.members[n - 1]);
      c.otype == m.otype && (m.otype == Note ==> c.blob == m.finalBlob)
  {
    hide NewParent, NewDependency;
  }

  lemma QueuedAt(s: State, man: Manifest, root: Uuid, k: nat)
    requires TopologyOk(s, man, root) && k < |man.members|
    ensures MemberQueued(s, man, root, man.members[k])
  {
    hide MemberQueued, ManifestShape, Complete;
  }

  lemma RootCopies(s: State, man: Manifest, recovered: Uuid, rootName: string)
    ensures B.CopiesOpen(s, Replacements(man, recovered, rootName, 0))
  {
  }

  lemma {:induction false} ReplacementBytes(s: State, man: Manifest, root: Uuid, recovered: Uuid, rootName: string,
                                            n: nat)
    requires TopologyOk(s, man, root) && n <= |man.members|
    ensures B.CopiesOpen(s, Replacements(man, recovered, rootName, n))
  {
    hide *;
    if n == 0 {
      RootCopies(s, man, recovered, rootName);
    } else {
      ReplacementBytes(s, man, root, recovered, rootName, n - 1);
      ReplacementIs(man, recovered, rootName, n);
      var c := Replacement(man, recovered, man.members[n - 1]);
      CarriesNote(c);
      if man.members[n - 1].otype == Note {
        QueuedAt(s, man, root, n - 1);
        MemberBytes(s, man, root, man.members[n - 1]);
      }
      CopiesNext(s, Replacements(man, recovered, rootName, n - 1), c);
    }
  }

  lemma CarriesNote(m: Mutation)
    ensures B.CarriesBlob(m) ==> m.otype == Note
  {
  }

  /** So replacing a validated tree is a step of a run in which no needed bytes are ever removed. */
  lemma TreeKeepsBytes(d: B.Disk, man: Manifest, root: Uuid, recovered: Uuid, rootName: string)
    requires B.BlobsSafe(d) && TopologyOk(d.db, man, root)
    ensures var step := B.ReplaceTree(Gone(man, 0), Replacements(man, recovered, rootName, |man.members|));
      B.BlobsSafe(B.NextDisk(d, step)) && B.CopiesOpen(d.db, step.ms)
  {
    ReplacementBytes(d.db, man, root, recovered, rootName, |man.members|);
    hide *;
    B.StepSafe(d, B.ReplaceTree(Gone(man, 0), Replacements(man, recovered, rootName, |man.members|)));
  }
}
