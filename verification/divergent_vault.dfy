/** Evacuating a diverged folder, call by call: what a fault leaves, when a rerun gets past it, and that no original is
    ever lost. */
module DivergentVault {
  import opened Naming
  import opened Optional
  import opened DivergentDisk

  class Vault {
    const man: Plan
    const front: Frontmatter
    var tree: Tree
    var place: Place
    var stage: Stage
    var published: bool
    var phase: Phase
    var faults: seq<Fault>
    ghost var perils: nat
    ghost var history: seq<Disk>

    function Now(): Disk
      reads this`tree, this`place, this`stage, this`published, this`phase
    {
      Disk(tree, place, stage, published, phase)
    }

    /** Every disk there ever was, the present one included, keeps what can be kept. */
    ghost predicate Valid()
      reads this`tree, this`place, this`stage, this`published, this`phase, this`history
    {
      PlanOk(front, man) && history != [] && history[|history| - 1] == Now() && AllSound(man, history)
    }

    /** Faults are only used up, and perils counts the perilous ones that struck. */
    twostate predicate Ran()
      reads this`faults, this`perils
    {
      && |faults| <= |old(faults)| && old(perils) <= perils && perils + |faults| <= old(perils) + |old(faults)|
      && perils + Perils(faults) == old(perils) + Perils(old(faults))
    }

    /** Without crashes among the faults nothing crashes. */
    twostate predicate Alive(crashed: bool)
      reads this`faults
    {
      NoCrash(old(faults)) ==> NoCrash(faults) && !crashed
    }

    constructor (man: Plan, front: Frontmatter, disk: Disk, faults: seq<Fault>)
      requires PlanOk(front, man) && Sound(man, disk)
      ensures Valid() && Now() == disk && history == [disk] && this.faults == faults && this.man == man
              && this.front == front
    {
      this.man, this.front, this.faults, this.perils, this.history := man, front, faults, 0, [disk];
      this.tree, this.place, this.stage, this.published, this.phase := disk.tree, disk.place, disk.stage,
        disk.published, disk.phase;
    }

    lemma NowSound()
      requires Valid()
      ensures Sound(man, Now()) && PlanOk(front, man)
    {
      hide Sound;
    }

    /** What the next call does. */
    method Next(c: Call) returns (e: Event)
      modifies this`faults, this`perils
      ensures Ran() && Alive(e == Crash) && (e != Go ==> |faults| < |old(faults)|)
      ensures perils == old(perils) + (if Perilous(c, e) then 1 else 0)
      ensures CutsMove(old(faults)) ==> if c == PublishFolder then e != Go else faults == old(faults)
      ensures CutsMarker(old(faults)) ==> if c == WriteMarker then e != Go else faults == old(faults)
    {
      StruckPerils(faults, c);
      if NoCrash(faults) {
        StruckAlive(faults, c);
      }
      hide Perils, Grave;
      var next := Struck(faults, c);
      e, faults := next.0, next.1;
      perils := perils + if Perilous(c, e) then 1 else 0;
    }

    // ---------------------------------------------------------------- moving the folder

    method SetPlace(now: Place)
      requires Valid() && phase == Prepared
      modifies this`place, this`history
      ensures Valid() && old(history) <= history && place == now
    {
      NowSound();
      PlaceStep(man, Now(), now);
      hide Sound;
      place := now;
      history := history + [Now()];
    }

    /** Renames the folder to a hidden name beside it and from there to its destination. A fault in between leaves it
        hidden, where neither the call nor the recovery looks for it again. */
    method MoveFolder(from: Place, to: Place) returns (o: Outcome)
      requires Valid() && phase == Prepared && place == from && from != Hidden && to != Hidden && from != to
      modifies this`place, this`history, this`faults, this`perils
      ensures Valid() && old(history) <= history && Ran() && Alive(o == Crashed)
      ensures place == Hidden <==> perils > old(perils)
      ensures if o == Done then place == to else |faults| < |old(faults)|
      ensures CutsMove(old(faults)) ==> place == Hidden
    {
      hide Valid, Perils, Grave, CutsMove, CutsMarker;
      GraveMoves();
      var e := Next(Check);
      if e == Crash {
        return Crashed;
      }
      e := Next(Check);
      if e != Go {
        return Ended(e);
      }
      e := Next(HideFolder);
      if e != Go {
        return Ended(e);
      }
      SetPlace(Hidden);
      e := Next(SyncHidden);
      if e != Go {
        return Ended(e);
      }
      o := PublishHidden(from, to);
    }

    method PublishHidden(from: Place, to: Place) returns (o: Outcome)
      requires Valid() && phase == Prepared && place == Hidden && from != Hidden && to != Hidden && from != to
      modifies this`place, this`history, this`faults, this`perils
      ensures Valid() && old(history) <= history && Ran() && Alive(o == Crashed)
      ensures place == Hidden <==> perils > old(perils)
      ensures if o == Done then place == to else |faults| < |old(faults)|
      ensures CutsMove(old(faults)) ==> place == Hidden
    {
      hide Valid, Perils, Grave, CutsMove, CutsMarker;
      GraveMoves();
      var e := Next(VerifyHidden);
      if e == Fail {
        e := Next(UnhideFolder);
        if e != Go {
          return Ended(e);
        }
        SetPlace(from);
        return Failed;
      }
      if e == Crash {
        return Crashed;
      }
      e := Next(OpenTarget);
      if e != Go {
        return Ended(e);
      }
      e := Next(PublishFolder);
      if e != Go {
        return Ended(e);
      }
      SetPlace(to);
      e := Next(Check);
      o := if e == Go then Done else Ended(e);
    }

    // ---------------------------------------------------------------- the stage

    method SetStage(now: Stage)
      requires Valid() && Sound(man, Now().(stage := now))
      modifies this`stage, this`history
      ensures Valid() && old(history) <= history && stage == now
    {
      hide Sound;
      stage := now;
      history := history + [Now()];
    }

    /** Makes the stage directory and its nonce marker. A fault between the two leaves a directory that no rerun
        accepts. */
    method CreateStage() returns (o: Outcome)
      requires Valid() && phase == Prepared && stage == Stage(Missing, map[], {}, 0)
      modifies this`stage, this`history, this`faults, this`perils
      ensures Valid() && old(history) <= history && Ran() && Alive(o == Crashed)
      ensures stage == old(stage).(mark := stage.mark) && (stage.mark == Unmarked <==> perils > old(perils))
      ensures if o == Done then stage.mark == Marked else |faults| < |old(faults)|
      ensures CutsMarker(old(faults)) ==> perils > old(perils)
      ensures CutsMove(old(faults)) ==> faults == old(faults)
    {
      hide Valid, Sound, NoCrash, Perils, Grave, CutsMove, CutsMarker;
      GraveStage();
      var e := Next(MakeStage);
      if e != Go {
        return Ended(e);
      }
      NowSound();
      MarkStep(man, Now(), Unmarked);
      SetStage(stage.(mark := Unmarked));
      e := Next(SyncStage);
      if e != Go {
        return Ended(e);
      }
      e := Next(WriteMarker);
      if e != Go {
        return Ended(e);
      }
      NowSound();
      MarkStep(man, Now(), Marked);
      SetStage(stage.(mark := Marked));
      e := Next(Check);
      o := if e == Go then Done else Ended(e);
    }

    method MakeStageFolder(i: nat) returns (o: Outcome)
      requires Valid() && phase == Prepared && stage.mark != Missing && i < |man.order| && man.order[i].FolderEntry?
      modifies this`stage, this`history, this`faults, this`perils
      ensures Valid() && old(history) <= history && Ran() && Alive(o == Crashed) && perils == old(perils)
      ensures stage == old(stage) || stage == old(stage).(dirs := old(stage).dirs + {man.order[i].path})
      ensures if o == Done then stage == old(stage).(dirs := old(stage).dirs + {man.order[i].path})
              else |faults| < |old(faults)|
      ensures CutsMove(old(faults)) ==> faults == old(faults)
    {
      hide Valid, Sound, NoCrash, Perils, Grave, CutsMove, CutsMarker;
      GraveStage();
      var e := Next(MakeFolder);
      if e != Go {
        return Ended(e);
      }
      NowSound();
      DirStep(man, Now(), i);
      SetStage(stage.(dirs := stage.dirs + {man.order[i].path}));
      e := Next(Check);
      o := if e == Go then Done else Ended(e);
    }

    /** Puts a note's original into the stage: a temporary file is written, linked under the note's name and removed
        again. A crash before it is removed, or a failure to remove it, leaves a file no rerun accepts. */
    method CreateNote(p: Path, c: Content) returns (o: Outcome)
      requires Valid() && phase == Prepared && stage.mark != Missing && p in man.known && c == man.known[p].original
      modifies this`stage, this`history, this`faults, this`perils
      ensures Valid() && old(history) <= history && Ran() && Alive(o == Crashed)
      ensures stage == old(stage).(notes := stage.notes, stray := stage.stray)
      ensures stage.notes == old(stage).notes || stage.notes == old(stage).notes[p := c]
      ensures if o == Done then stage.notes == old(stage).notes[p := c] else |faults| < |old(faults)|
      ensures stage.stray >= old(stage).stray && (stage.stray > old(stage).stray <==> perils > old(perils))
      ensures CutsMove(old(faults)) ==> faults == old(faults)
    {
      hide Valid, Sound, NoCrash, Perils, Grave, CutsMove, CutsMarker;
      GraveCreate();
      var e := Next(CreateTemp);
      if e != Go {
        return Ended(e);
      }
      NowSound();
      StrayStep(man, Now(), stage.stray + 1);
      SetStage(stage.(stray := stage.stray + 1));
      e := FillNote(p, c);
      o := if e == Go then Done else Ended(e);
      if e != Crash {
        e := DropTemp();
        if e == Crash {
          o := Crashed;
        }
      }
    }

    method DropTemp() returns (e: Event)
      requires Valid() && phase == Prepared && stage.mark != Missing && stage.stray > 0
      modifies this`stage, this`history, this`faults, this`perils
      ensures Valid() && old(history) <= history && Ran() && Alive(e == Crash) && (perils > old(perils) <==> e != Go)
      ensures stage == if e == Go then old(stage).(stray := old(stage).stray - 1) else old(stage)
      ensures e != Go ==> |faults| < |old(faults)|
      ensures CutsMove(old(faults)) ==> faults == old(faults)
    {
      hide Valid, Sound, NoCrash, Perils, Grave, CutsMove, CutsMarker;
      GraveCreate();
      e := Next(RemoveTemp);
      if e == Go {
        NowSound();
        StrayStep(man, Now(), stage.stray - 1);
        SetStage(stage.(stray := stage.stray - 1));
      }
    }

    /** The temporary file is there: write it and link it. */
    method FillNote(p: Path, c: Content) returns (e: Event)
      requires Valid() && phase == Prepared && stage.mark != Missing && p in man.known && c == man.known[p].original
      modifies this`stage, this`history, this`faults, this`perils
      ensures Valid() && old(history) <= history && Ran() && Alive(e == Crash) && (perils > old(perils) <==> e == Crash)
      ensures stage == old(stage) || stage == old(stage).(notes := old(stage).notes[p := c])
      ensures if e == Go then stage == old(stage).(notes := old(stage).notes[p := c]) else |faults| < |old(faults)|
      ensures CutsMove(old(faults)) ==> faults == old(faults)
    {
      hide Valid, Sound, NoCrash, Perils, Grave, CutsMove, CutsMarker;
      GraveCreate();
      e := Next(WriteTemp);
      if e != Go {
        return;
      }
      e := Next(LinkNote);
      if e != Go {
        return;
      }
      NowSound();
      StageStep(man, Now(), p);
      SetStage(stage.(notes := stage.notes[p := c]));
      e := Next(SyncNote);
    }

    /** Stages one entry, unless it is staged already. */
    method StageEntry(i: nat) returns (o: Outcome)
      requires Valid() && Rank(phase) < 2 && stage.mark == Marked && i < |man.order| && StagedAt(man, i, stage)
      modifies this`stage, this`history, this`faults, this`perils
      ensures Valid() && old(history) <= history && Ran() && Alive(o == Crashed) && stage.mark == Marked
      ensures if o == Done then StagedAt(man, i + 1, stage) else |faults| < |old(faults)|
      ensures stage.stray >= old(stage).stray && (stage.stray > old(stage).stray <==> perils > old(perils))
      ensures phase != Prepared ==> stage == old(stage)
      ensures CutsMove(old(faults)) ==> faults == old(faults)
    {
      hide Valid, Sound, PlanOk, NoteOk, StagedAt, Perils, Grave, CutsMove, CutsMarker;
      NowSound();
      var m := man.order[i];
      if m.FolderEntry? {
        StagedNext(man, i, stage, []);
        GraveStage();
        var e := Next(Check);
        if e != Go {
          return Ended(e);
        }
        if m.path in stage.dirs {
          return Done;
        }
        FolderAt(man, Now(), i);
        o := MakeStageFolder(i);
      } else {
        OrderedKnown(front, man, i);
        KnownAt(man, Now(), m.path);
        o := StageNoteEntry(i);
      }
    }

    method StageNoteEntry(i: nat) returns (o: Outcome)
      requires Valid() && stage.mark == Marked && i < |man.order| && StagedAt(man, i, stage) && man.order[i].NoteEntry?
      requires man.order[i].path in man.known && NoteOk(front, man.known[man.order[i].path])
      modifies this`stage, this`history, this`faults, this`perils
      ensures Valid() && old(history) <= history && Ran() && Alive(o == Crashed) && stage.mark == Marked
      ensures if o == Done then StagedAt(man, i + 1, stage) else |faults| < |old(faults)|
      ensures stage.stray >= old(stage).stray && (stage.stray > old(stage).stray <==> perils > old(perils))
      ensures phase != Prepared ==> stage == old(stage)
      ensures CutsMove(old(faults)) ==> faults == old(faults)
    {
      hide Valid, Sound, PlanOk, NoteOk, StagedAt, Perils, Grave, CutsMove, CutsMarker;
      NowSound();
      var p := man.order[i].path;
      var n := man.known[p];
      KnownAt(man, Now(), p);
      NotesApart(front, n);
      GraveStage();
      StagedNext(man, i, stage, n.original);
      var e := Next(Check);
      if e != Go {
        return Ended(e);
      }
      if p in stage.notes {
        if stage.notes[p] != n.original || front.ident(stage.notes[p]) != n.source {
          return Failed;
        }
        return Done;
      }
      if tree.notes[p] != n.original || front.ident(tree.notes[p]) != n.source {
        return Failed;
      }
      o := CreateNote(p, n.original);
      if o == Done {
        StagedStray(man, i + 1, stage, old(stage).(notes := old(stage).notes[p := n.original]));
      }
    }

    /** Stages the original of every known note and a directory for every known folder, keeping what is already there,
        and verifies that there is nothing else. */
    method EnsureStage() returns (o: Outcome)
      requires Valid() && Rank(phase) < 2
      modifies this`stage, this`history, this`faults, this`perils
      ensures Valid() && old(history) <= history && Ran() && Alive(o == Crashed)
      ensures o == Done ==> StageWhole(man, stage)
      ensures !StageBroken(old(stage)) && o != Done ==> |faults| < |old(faults)|
      ensures StageBroken(stage) <==> StageBroken(old(stage)) || perils > old(perils)
      ensures phase != Prepared ==> stage == old(stage)
      ensures CutsMove(old(faults)) ==> faults == old(faults)
      ensures CutsMarker(old(faults)) && old(stage).mark == Missing ==> perils > old(perils)
    {
      hide Valid, Sound, PlanOk, StagedAt, StageWhole, Perils, Grave, CutsMove, CutsMarker;
      NowSound();
      PhasesOk(man, Now());
      GraveStage();
      var e := Next(Check);
      if e != Go || stage.mark == Unmarked {
        return Ended(e);
      }
      if stage.mark == Missing {
        o := CreateStage();
        if o != Done {
          return;
        }
      }
      o := StageEntries();
      if o != Done {
        return;
      }
      e := Next(Check);
      if e != Go || stage.stray > 0 {
        return Ended(e);
      }
      NowSound();
      AllStaged(front, man, Now());
    }

    method StageEntries() returns (o: Outcome)
      requires Valid() && Rank(phase) < 2 && stage.mark == Marked
      modifies this`stage, this`history, this`faults, this`perils
      ensures Valid() && old(history) <= history && Ran() && Alive(o == Crashed) && stage.mark == Marked
      ensures if o == Done then StagedAt(man, |man.order|, stage) else |faults| < |old(faults)|
      ensures stage.stray >= old(stage).stray && (stage.stray > old(stage).stray <==> perils > old(perils))
      ensures phase != Prepared ==> stage == old(stage)
      ensures CutsMove(old(faults)) ==> faults == old(faults)
    {
      hide Valid, StagedAt, Perils, CutsMove, CutsMarker;
      NothingStaged(man, stage);
      for i := 0 to |man.order|
        invariant Valid() && old(history) <= history && Ran() && Alive(false) && stage.mark == Marked
                  && StagedAt(man, i, stage)
        invariant stage.stray >= old(stage).stray && (stage.stray > old(stage).stray <==> perils > old(perils))
        invariant phase != Prepared ==> stage == old(stage)
        invariant CutsMove(old(faults)) ==> faults == old(faults)
      {
        o := StageEntry(i);
        if o != Done {
          return;
        }
      }
      o := Done;
    }

    // ---------------------------------------------------------------- the notes of the tree

    method SetLitter(litter: nat)
      requires Valid() && phase == Prepared
      modifies this`tree, this`history
      ensures Valid() && old(history) <= history && tree == old(tree).(litter := litter)
    {
      NowSound();
      LitterStep(man, Now(), litter);
      hide Sound;
      tree := tree.(litter := litter);
      history := history + [Now()];
    }

    /** A note of the tree gets new bytes, or loses its name. */
    method SetNote(p: Path, c: Option<Content>)
      requires Valid() && phase == Prepared && p in man.known && p in stage.notes
      requires c == None || c.value == man.known[p].original || c.value == man.known[p].rekeyed
      modifies this`tree, this`history
      ensures Valid() && old(history) <= history
      ensures tree == old(tree).(notes := if c == None then old(tree).notes - {p} else old(tree).notes[p := c.value])
    {
      NowSound();
      TreeStep(man, Now(), p, c);
      hide Sound;
      tree := tree.(notes := if c == None then tree.notes - {p} else tree.notes[p := c.value]);
      history := history + [Now()];
    }

    method DropHidden(c: Call) returns (e: Event)
      requires Valid() && phase == Prepared && tree.litter > 0 && c != PublishFolder && c != WriteMarker
      modifies this`tree, this`history, this`faults, this`perils
      ensures Valid() && old(history) <= history && Ran() && Alive(e == Crash)
              && perils == old(perils) + (if Perilous(c, e) then 1 else 0)
      ensures tree == if e == Go then old(tree).(litter := old(tree).litter - 1) else old(tree)
      ensures e != Go ==> |faults| < |old(faults)|
    {
      hide Valid, Perils, Perilous, CutsMove, CutsMarker;
      e := Next(c);
      if e == Go {
        SetLitter(tree.litter - 1);
      }
    }

    /** Takes the name off a note: its file goes under a hidden name, where an empty file keeps the place. */
    method HoldNote(p: Path) returns (e: Event)
      requires Valid() && phase == Prepared && p in man.known && p in stage.notes
      modifies this`tree, this`history, this`faults, this`perils
      ensures Valid() && old(history) <= history && Ran() && Alive(e == Crash)
      ensures e == Go ==> tree == Tree(old(tree).notes - {p}, old(tree).litter + 1) && perils == old(perils)
      ensures e != Go ==> |faults| < |old(faults)| && tree == old(tree).(litter := tree.litter)
      ensures e != Go ==> tree.litter >= old(tree).litter && (tree.litter > old(tree).litter <==> perils > old(perils))
    {
      hide Valid, Perils, Grave, CutsMove, CutsMarker;
      GraveHold();
      e := Next(CreateHold);
      if e != Go {
        return;
      }
      SetLitter(tree.litter + 1);
      e := Next(CloseHold);
      if e != Go {
        return;
      }
      e := Next(Displace);
      if e == Go {
        SetNote(p, None);
      }
      if e == Fail {
        e := DropHidden(RemoveHold);
        e := if e == Crash then Crash else Fail;
      }
    }

    /** Gives a held note its name back and drops the hidden files. */
    method UndoWrite(p: Path, c: Content, temp: bool) returns (o: Outcome)
      requires Valid() && phase == Prepared && p in man.known && p in stage.notes && p !in tree.notes
      requires c == man.known[p].original || c == man.known[p].rekeyed
      requires tree.litter >= if temp then 2 else 1
      modifies this`tree, this`history, this`faults, this`perils
      ensures Valid() && old(history) <= history && Ran() && Alive(o == Crashed) && o != Done
      ensures tree.notes == old(tree).notes || tree.notes == old(tree).notes[p := c]
      ensures var least := old(tree).litter - if temp then 2 else 1;
        tree.litter >= least && (tree.litter > least || p !in tree.notes <==> perils > old(perils))
    {
      hide Valid, Perils, Grave, CutsMove, CutsMarker, NoCrash;
      GraveUndo();
      GraveReplace();
      var e := Next(PutBack);
      if e == Crash {
        return Crashed;
      }
      if e == Fail {
        o := DropRest(temp, false);
        return;
      }
      SetNote(p, Some(c));
      e := Next(SyncBack);
      if e == Crash {
        return Crashed;
      }
      e := DropHidden(DropBack);
      if e == Crash {
        return Crashed;
      }
      o := DropRest(temp, e == Fail);
    }

    /** Drops the new file, and the held one if that failed before. */
    method DropRest(temp: bool, again: bool) returns (o: Outcome)
      requires Valid() && phase == Prepared && tree.litter >= (if temp then 1 else 0) + if again then 1 else 0
      modifies this`tree, this`history, this`faults, this`perils
      ensures Valid() && old(history) <= history && Ran() && Alive(o == Crashed) && o != Done
              && tree == old(tree).(litter := tree.litter)
      ensures var least := old(tree).litter - (if temp then 1 else 0) - if again then 1 else 0;
        tree.litter >= least && (tree.litter > least <==> perils > old(perils))
    {
      hide Valid, Perils, Grave, CutsMove, CutsMarker;
      GraveUndo();
      GraveReplace();
      if temp {
        var e := DropHidden(DropNew);
        if e == Crash {
          return Crashed;
        }
      }
      if again {
        var e := DropHidden(DropAgain);
        if e == Crash {
          return Crashed;
        }
      }
      o := Failed;
    }

    /** The note is held: write its new bytes to a hidden file, link that under the note's name, and drop both hidden
        files. */
    method ReplaceHeld(p: Path, was: Content, c: Content) returns (o: Outcome)
      requires Valid() && phase == Prepared && p in man.known && p in stage.notes && p !in tree.notes && tree.litter > 0
      requires was == man.known[p].original || was == man.known[p].rekeyed
      requires c == man.known[p].original || c == man.known[p].rekeyed
      modifies this`tree, this`history, this`faults, this`perils
      ensures Valid() && old(history) <= history && Ran() && Alive(o == Crashed)
      ensures tree.notes == old(tree).notes || tree.notes == old(tree).notes[p := was]
              || tree.notes == old(tree).notes[p := c]
      ensures if o == Done then tree.notes == old(tree).notes[p := c] else |faults| < |old(faults)|
      ensures tree.litter >= old(tree).litter - 1
              && (tree.litter >= old(tree).litter || p !in tree.notes <==> perils > old(perils))
    {
      hide Valid, Perils, Grave, CutsMove, CutsMarker;
      GraveReplace();
      var e := Next(ReadHeld);
      if e == Go {
        e := Next(CreateNew);
      }
      if e == Crash {
        return Crashed;
      }
      if e == Fail {
        o := UndoWrite(p, was, false);
        return;
      }
      SetLitter(tree.litter + 1);
      o := FillNew(p, was, c);
    }

    /** Both hidden files are there: write the new one and link it. */
    method FillNew(p: Path, was: Content, c: Content) returns (o: Outcome)
      requires Valid() && phase == Prepared && p in man.known && p in stage.notes && p !in tree.notes
               && tree.litter >= 2
      requires was == man.known[p].original || was == man.known[p].rekeyed
      requires c == man.known[p].original || c == man.known[p].rekeyed
      modifies this`tree, this`history, this`faults, this`perils
      ensures Valid() && old(history) <= history && Ran() && Alive(o == Crashed)
      ensures tree.notes == old(tree).notes || tree.notes == old(tree).notes[p := was]
              || tree.notes == old(tree).notes[p := c]
      ensures if o == Done then tree.notes == old(tree).notes[p := c] else |faults| < |old(faults)|
      ensures tree.litter >= old(tree).litter - 2
              && (tree.litter > old(tree).litter - 2 || p !in tree.notes <==> perils > old(perils))
    {
      hide Valid, Perils, Grave, CutsMove, CutsMarker;
      GraveReplace();
      var e := Next(WriteNew);
      if e == Go {
        e := Next(LinkNew);
      }
      if e == Crash {
        return Crashed;
      }
      if e == Fail {
        o := UndoWrite(p, was, true);
        return;
      }
      SetNote(p, Some(c));
      o := DropBoth();
    }

    method DropBoth() returns (o: Outcome)
      requires Valid() && phase == Prepared && tree.litter >= 2
      modifies this`tree, this`history, this`faults, this`perils
      ensures Valid() && old(history) <= history && Ran() && Alive(o == Crashed)
              && tree == old(tree).(litter := tree.litter)
      ensures o != Done ==> |faults| < |old(faults)|
      ensures tree.litter >= old(tree).litter - 2 && (tree.litter > old(tree).litter - 2 <==> perils > old(perils))
    {
      hide Valid, Perils, Grave, CutsMove, CutsMarker;
      GraveReplace();
      var e := Next(SyncNew);
      if e == Go {
        e := DropHidden(DropHeld);
      }
      if e == Crash {
        return Crashed;
      }
      o := if e == Go then Done else Failed;
      e := DropHidden(DropNew);
      if e == Crash {
        o := Crashed;
      }
    }

    /** Replaces a note's bytes. Every fault after its file was taken from its name leaves a hidden file or no note at
        all, unless the old file could be put back. */
    method WriteNote(p: Path, c: Content) returns (o: Outcome)
      requires Valid() && phase == Prepared && p in man.known && p in stage.notes && p in tree.notes
      requires tree.notes[p] == man.known[p].original || tree.notes[p] == man.known[p].rekeyed
      requires c == man.known[p].original || c == man.known[p].rekeyed
      modifies this`tree, this`history, this`faults, this`perils
      ensures Valid() && old(history) <= history && Ran() && Alive(o == Crashed)
      ensures tree.notes == old(tree).notes || tree.notes == old(tree).notes - {p}
              || tree.notes == old(tree).notes[p := c]
      ensures if o == Done then tree.notes == old(tree).notes[p := c] else |faults| < |old(faults)|
      ensures tree.litter >= old(tree).litter
              && (tree.litter > old(tree).litter || p !in tree.notes <==> perils > old(perils))
    {
      hide Valid, Perils, Grave, CutsMove, CutsMarker;
      var was := tree.notes[p];
      var e := HoldNote(p);
      if e != Go {
        return Ended(e);
      }
      ghost var held := tree.notes;
      assert held[p := was] == old(tree).notes && held[p := c] == old(tree).notes[p := c];
      o := ReplaceHeld(p, was, c);
    }

    /** Gives every known note of the tree its new identity, skipping those that have it. */
    method Rewrite() returns (o: Outcome)
      requires Valid() && phase == Prepared && stage.notes == Originals(man)
      modifies this`tree, this`history, this`faults, this`perils
      ensures Valid() && old(history) <= history && Ran() && Alive(o == Crashed)
      ensures o == Done ==> NotesAt(man, |man.order|, tree.notes, true)
      ensures Worn(old(tree), tree) && (Unharmed(old(tree), tree) <==> perils == old(perils))
      ensures !TreeBroken(man, old(tree)) && o != Done ==> |faults| < |old(faults)|
    {
      hide Valid, Sound, PlanOk, Originals, NotesAt, TreeBroken, Worn, Unharmed, Perils, CutsMove, CutsMarker;
      NoNotes(man, tree.notes, true);
      NoWear(tree);
      for i := 0 to |man.order|
        invariant Valid() && old(history) <= history && Ran() && Alive(false) && NotesAt(man, i, tree.notes, true)
        invariant Worn(old(tree), tree) && (Unharmed(old(tree), tree) <==> perils == old(perils))
      {
        ghost var before := tree;
        o := RewriteEntry(i);
        WornTwice(old(tree), before, tree);
        if o != Done {
          if !TreeBroken(man, old(tree)) && man.order[i].NoteEntry? && man.order[i].path !in before.notes {
            NowSound();
            NameLost(front, man, old(tree), before, i);
          }
          return;
        }
      }
      o := Done;
    }

    method RewriteEntry(i: nat) returns (o: Outcome)
      requires Valid() && phase == Prepared && stage.notes == Originals(man) && i < |man.order|
               && NotesAt(man, i, tree.notes, true)
      modifies this`tree, this`history, this`faults, this`perils
      ensures Valid() && old(history) <= history && Ran() && Alive(o == Crashed)
      ensures o == Done ==> NotesAt(man, i + 1, tree.notes, true)
      ensures Worn(old(tree), tree) && (Unharmed(old(tree), tree) <==> perils == old(perils))
      ensures o != Done ==> |faults| < |old(faults)|
                            || (man.order[i].NoteEntry? && man.order[i].path !in old(tree).notes)
    {
      hide Valid, Sound, PlanOk, NoteOk, Originals, NotesAt, Perils, Grave, CutsMove, CutsMarker;
      NowSound();
      var m := man.order[i];
      if m.FolderEntry? {
        NotesNext(man, i, tree.notes, true);
        return Done;
      }
      OrderedKnown(front, man, i);
      KnownAt(man, Now(), m.path);
      OriginalStaged(man, m.path);
      GraveStage();
      var n := man.known[m.path];
      NotesApart(front, n);
      NotesNext(man, i, tree.notes, true);
      var e := Next(Check);
      if e != Go || m.path !in tree.notes {
        return Ended(e);
      }
      var content := tree.notes[m.path];
      if content == n.rekeyed && front.ident(content) == n.recovered {
        NotesHere(man, i, tree.notes, true);
        return Done;
      }
      if content != n.original || front.ident(content) != n.source {
        return Failed;
      }
      var rekeyed := front.rekey(content, n.source, n.recovered);
      if rekeyed == None || rekeyed.value != n.rekeyed || front.ident(rekeyed.value) != n.recovered {
        return Failed;
      }
      o := WriteNote(m.path, rekeyed.value);
      NoteWear(old(tree), tree, m.path, n.rekeyed);
    }

    /** Puts the staged original of every known note back into the tree. */
    method Restore() returns (o: Outcome)
      requires Valid() && phase == Prepared && stage.notes == Originals(man)
      modifies this`tree, this`history, this`faults, this`perils
      ensures Valid() && old(history) <= history && Ran() && Alive(o == Crashed)
      ensures o == Done ==> NotesAt(man, |man.order|, tree.notes, false)
      ensures Worn(old(tree), tree) && (Unharmed(old(tree), tree) <==> perils == old(perils))
      ensures !TreeBroken(man, old(tree)) && o != Done ==> |faults| < |old(faults)|
    {
      hide Valid, Sound, PlanOk, Originals, NotesAt, TreeBroken, Worn, Unharmed, Perils, CutsMove, CutsMarker;
      NoNotes(man, tree.notes, false);
      NoWear(tree);
      for i := 0 to |man.order|
        invariant Valid() && old(history) <= history && Ran() && Alive(false) && NotesAt(man, i, tree.notes, false)
        invariant Worn(old(tree), tree) && (Unharmed(old(tree), tree) <==> perils == old(perils))
      {
        ghost var before := tree;
        o := RestoreEntry(i);
        WornTwice(old(tree), before, tree);
        if o != Done {
          if !TreeBroken(man, old(tree)) && man.order[i].NoteEntry? && man.order[i].path !in before.notes {
            NowSound();
            NameLost(front, man, old(tree), before, i);
          }
          return;
        }
      }
      o := Done;
    }

    method RestoreEntry(i: nat) returns (o: Outcome)
      requires Valid() && phase == Prepared && stage.notes == Originals(man) && i < |man.order|
               && NotesAt(man, i, tree.notes, false)
      modifies this`tree, this`history, this`faults, this`perils
      ensures Valid() && old(history) <= history && Ran() && Alive(o == Crashed)
      ensures o == Done ==> NotesAt(man, i + 1, tree.notes, false)
      ensures Worn(old(tree), tree) && (Unharmed(old(tree), tree) <==> perils == old(perils))
      ensures o != Done ==> |faults| < |old(faults)|
                            || (man.order[i].NoteEntry? && man.order[i].path !in old(tree).notes)
    {
      hide Valid, Sound, PlanOk, NoteOk, Originals, NotesAt, Perils, Grave, CutsMove, CutsMarker;
      NowSound();
      var m := man.order[i];
      if m.FolderEntry? {
        NotesNext(man, i, tree.notes, false);
        return Done;
      }
      OrderedKnown(front, man, i);
      KnownAt(man, Now(), m.path);
      OriginalStaged(man, m.path);
      GraveStage();
      var n := man.known[m.path];
      NotesApart(front, n);
      NotesNext(man, i, tree.notes, false);
      var e := Next(Check);
      if e != Go || m.path !in tree.notes {
        return Ended(e);
      }
      var current := tree.notes[m.path];
      if current == n.original && front.ident(current) == n.source {
        NotesHere(man, i, tree.notes, false);
        return Done;
      }
      if current != n.rekeyed || front.ident(current) != n.recovered {
        return Failed;
      }
      e := Next(Check);
      if e != Go || stage.notes[m.path] != n.original || front.ident(stage.notes[m.path]) != n.source {
        return Ended(e);
      }
      o := WriteNote(m.path, stage.notes[m.path]);
      NoteWear(old(tree), tree, m.path, n.original);
    }

    // ---------------------------------------------------------------- the phases

    method RestoreNotes() returns (o: Outcome)
      requires Valid() && phase == Prepared && stage.notes == Originals(man)
      modifies this`tree, this`history, this`faults, this`perils
      ensures Valid() && old(history) <= history && Ran() && Alive(o == Crashed)
      ensures o == Done && !TreeBroken(man, tree) ==> tree == Tree(SourceTree(man), 0)
      ensures TreeBroken(man, tree) <==> TreeBroken(man, old(tree)) || perils > old(perils)
      ensures !TreeBroken(man, old(tree)) && o != Done ==> |faults| < |old(faults)|
    {
      hide Valid, Sound, PlanOk, TreeSound, Mixed, OriginalsKept, Originals, SourceTree, RecoveredTree, TreeBroken,
           Worn, Unharmed, NotesAt, Perils;
      NowSound();
      TreeIs(man, Now());
      o := Restore();
      NowSound();
      TreeIs(man, Now());
      Harm(man, old(tree), tree);
      if o == Done && !TreeBroken(man, tree) {
        NotesAll(front, man, tree.notes, false);
      }
    }

    /** Undoes an evacuation that cannot be finished: the stage is completed, the notes get their originals back, and
        the folder returns to where it was. */
    method RestorePrepared() returns (o: Outcome)
      requires Valid() && phase == Prepared && place == Aside
      modifies this`tree, this`place, this`stage, this`history, this`faults, this`perils
      ensures Valid() && old(history) <= history && Ran() && Alive(o == Crashed) && o != Done
      ensures Stuck(man, Now()) <==> Stuck(man, old(Now())) || perils > old(perils)
      ensures |faults| == |old(faults)| && !Stuck(man, old(Now())) ==>
                o == Failed && tree == Tree(SourceTree(man), 0) && place == Attempted
    {
      hide Valid, Sound, PlanOk, Originals, SourceTree, TreeBroken, StageBroken, StageWhole, Stuck, Perils, CutsMove,
           CutsMarker;
      StuckIs(man, Now());
      o := EnsureStage();
      if o == Done {
        WholeStage(man, stage);
        o := RestoreStaged();
      }
      StuckIs(man, Now());
    }

    method RestoreStaged() returns (o: Outcome)
      requires Valid() && phase == Prepared && place == Aside && stage.notes == Originals(man)
      modifies this`tree, this`place, this`history, this`faults, this`perils
      ensures Valid() && old(history) <= history && Ran() && Alive(o == Crashed) && o != Done
      ensures place == Hidden || TreeBroken(man, tree) <==> TreeBroken(man, old(tree)) || perils > old(perils)
      ensures |faults| == |old(faults)| && !TreeBroken(man, old(tree)) ==>
                o == Failed && tree == Tree(SourceTree(man), 0) && place == Attempted
    {
      hide Valid, Sound, PlanOk, Originals, SourceTree, TreeBroken, Perils, Grave, CutsMove, CutsMarker;
      o := RestoreNotes();
      if o != Done {
        return;
      }
      GraveStage();
      var e := Next(Check);
      if e != Go || tree != Tree(SourceTree(man), 0) {
        return Ended(e);
      }
      VerifiedTree(man, tree);
      o := MoveFolder(Aside, Attempted);
      if o == Done {
        e := Next(Check);
        o := Ended(e);
      }
    }

    method SetPhase(now: Phase)
      requires Valid() && Sound(man, Now().(phase := now))
      modifies this`phase, this`history
      ensures Valid() && old(history) <= history && phase == now
    {
      hide Sound;
      phase := now;
      history := history + [Now()];
    }

    /** Verifies the tree where the refused move put it, and otherwise aside: the two places a recovery looks at. */
    method Locate() returns (o: Outcome, at: Place)
      requires Valid() && phase == Prepared
      modifies this`faults, this`perils
      ensures Ran() && Alive(o == Crashed) && perils == old(perils)
      ensures o == Done ==> at == place && at != Hidden && !TreeBroken(man, tree)
      ensures o != Done && place != Hidden && !TreeBroken(man, tree) ==> |faults| < |old(faults)|
      ensures CutsMove(old(faults)) || CutsMarker(old(faults)) ==> faults == old(faults)
    {
      hide Valid, Sound, PlanOk, TreeSound, OriginalsKept, TreeBroken, Perils, Grave, CutsMove, CutsMarker;
      NowSound();
      TreeIs(man, Now());
      GraveCheck();
      at := Attempted;
      var e := Next(Check);
      if e != Go {
        return Ended(e), at;
      }
      e := Next(Check);
      if e == Crash {
        return Crashed, at;
      }
      if e == Go && place == Attempted && Transition(man, tree) {
        return Done, at;
      }
      at := Aside;
      e := Next(Check);
      if e == Crash {
        return Crashed, at;
      }
      o := if e == Go && place == Aside && Transition(man, tree) then Done else Failed;
    }

    /** Verify the evacuated tree, record it in the index, and record the phase. Whatever fails is undone. */
    method SealEvacuation() returns (o: Outcome)
      requires Valid() && phase == Prepared && place == Aside && StageWhole(man, stage)
      requires !TreeBroken(man, tree) ==> tree == Tree(RecoveredTree(man), 0)
      modifies this`tree, this`place, this`stage, this`phase, this`history, this`faults, this`perils
      ensures Valid() && old(history) <= history && Ran() && Alive(o == Crashed)
              && phase == (if o == Done then Evacuated else Prepared)
      ensures Stuck(man, Now()) <==> TreeBroken(man, old(tree)) || perils > old(perils)
      ensures o != Done && !TreeBroken(man, old(tree)) ==> |faults| < |old(faults)|
      ensures o == Failed && |old(faults)| == 1 && !Stuck(man, Now()) ==>
                tree == Tree(SourceTree(man), 0) && place == Attempted
    {
      hide Valid, Sound, PlanOk, SourceTree, RecoveredTree, TreeBroken, StageBroken, StageWhole, Stuck, Perils, Grave,
           CutsMove, CutsMarker;
      StuckIs(man, Now());
      WholeStage(man, stage);
      GraveCheck();
      var e := Next(Check);
      if e == Go && tree == Tree(RecoveredTree(man), 0) {
        VerifiedTree(man, tree);
        e := Next(Check);
        if e == Go {
          e := Next(RecordPhase);
        }
        if e == Go {
          NowSound();
          EvacuatedStep(man, Now());
          SetPhase(Evacuated);
          StuckIs(man, Now());
          return Done;
        }
      }
      if e == Crash {
        return Crashed;
      }
      o := RestorePrepared();
    }

    /** The folder is aside and its originals are staged: give its notes their new identities and seal the
        evacuation. */
    method RewriteAndSeal() returns (o: Outcome)
      requires Valid() && phase == Prepared && place == Aside && StageWhole(man, stage) && !TreeBroken(man, tree)
      modifies this`tree, this`place, this`stage, this`phase, this`history, this`faults, this`perils
      ensures Valid() && old(history) <= history && Ran() && Alive(o == Crashed)
              && phase == (if o == Done then Evacuated else Prepared)
      ensures Stuck(man, Now()) <==> perils > old(perils)
      ensures o != Done ==> |faults| < |old(faults)|
      ensures o == Failed && |old(faults)| == 1 && !Stuck(man, Now()) ==>
                tree == Tree(SourceTree(man), 0) && place == Attempted
    {
      hide Valid, Sound, PlanOk, TreeSound, Mixed, OriginalsKept, Originals, SourceTree, RecoveredTree, NotesAt, Worn,
           Unharmed;
      hide TreeBroken, StageBroken, StageWhole, Stuck, Perils, CutsMove, CutsMarker;
      WholeStage(man, stage);
      NowSound();
      TreeIs(man, Now());
      o := Rewrite();
      NowSound();
      TreeIs(man, Now());
      Harm(man, old(tree), tree);
      StuckIs(man, Now());
      if o == Crashed {
        return;
      }
      if o == Failed {
        o := RestorePrepared();
        return;
      }
      if !TreeBroken(man, tree) {
        NotesAll(front, man, tree.notes, true);
      }
      o := SealEvacuation();
    }

    /** The first phase: stage the originals, move the folder aside, give its notes their new identities. */
    method Evacuate() returns (o: Outcome)
      requires Valid() && phase == Prepared
      modifies this`tree, this`place, this`stage, this`phase, this`history, this`faults, this`perils
      ensures Valid() && old(history) <= history && Ran() && Alive(o == Crashed)
              && phase == (if o == Done then Evacuated else Prepared)
      ensures Stuck(man, Now()) <==> Stuck(man, old(Now())) || perils > old(perils)
      ensures !Stuck(man, old(Now())) && o != Done ==> |faults| < |old(faults)|
      ensures old(place) == Hidden ==> Now() == old(Now())
      ensures !Stuck(man, old(Now())) && CutsMove(old(faults)) && old(place) == Attempted ==>
                o != Done && place == Hidden
      ensures !Stuck(man, old(Now())) && CutsMarker(old(faults)) && old(stage).mark == Missing ==> Stuck(man, Now())
      ensures o == Failed && |old(faults)| == 1 && !Stuck(man, Now()) ==>
        tree == old(tree) || (tree == Tree(SourceTree(man), 0) && place == Attempted)
    {
      hide Valid, Sound, PlanOk, SourceTree, TreeBroken, StageBroken, StageWhole, Stuck, Perils, CutsMove, CutsMarker;
      StuckIs(man, Now());
      var at: Place;
      o, at := Locate();
      if o != Done {
        return;
      }
      o := EnsureStage();
      StuckIs(man, Now());
      if o != Done {
        return;
      }
      WholeStage(man, stage);
      if at == Attempted {
        o := MoveFolder(Attempted, Aside);
        StuckIs(man, Now());
        if o != Done {
          return;
        }
      }
      o := RewriteAndSeal();
    }

    /** n calls that change nothing. */
    method Checks(n: nat) returns (o: Outcome)
      modifies this`faults, this`perils
      ensures Ran() && Alive(o == Crashed) && perils == old(perils) && (o != Done ==> |faults| < |old(faults)|)
    {
      hide Perils, Grave, CutsMove, CutsMarker;
      GraveCheck();
      for call := 0 to n
        invariant Ran() && Alive(false) && perils == old(perils)
      {
        var e := Next(Check);
        if e != Go {
          return Ended(e);
        }
      }
      o := Done;
    }

    /** A database transaction records the next phase. */
    method Record(now: Phase) returns (o: Outcome)
      requires Valid() && Sound(man, Now().(phase := now))
      modifies this`phase, this`history, this`faults, this`perils
      ensures Valid() && old(history) <= history && Ran() && Alive(o == Crashed) && perils == old(perils)
      ensures if o == Done then phase == now else phase == old(phase) && |faults| < |old(faults)|
    {
      hide Valid, Sound, NoCrash, Perils, Grave, CutsMove, CutsMarker;
      GraveCheck();
      var e := Next(RecordPhase);
      if e != Go {
        return Ended(e);
      }
      SetPhase(now);
      o := Done;
    }

    /** The second phase: verify the evacuated tree again, complete the stage, record its identities. */
    method PrepareCanonical() returns (o: Outcome)
      requires Valid() && phase == Evacuated
      modifies this`stage, this`phase, this`history, this`faults, this`perils
      ensures Valid() && old(history) <= history && Ran() && Alive(o == Crashed) && perils == old(perils)
      ensures o == Done ==> phase == CanonicalPrepared
      ensures o != Done ==> |faults| < |old(faults)| && (phase == Evacuated || phase == CanonicalPrepared)
    {
      hide Valid, Sound, PlanOk, RecoveredTree, StageBroken, StageWhole, Perils, CutsMove, CutsMarker;
      NowSound();
      PhasesOk(man, Now());
      o := Checks(2);
      if o != Done || tree != Tree(RecoveredTree(man), 0) {
        return;
      }
      WholeStage(man, stage);
      o := EnsureStage();
      if o != Done {
        return;
      }
      NowSound();
      PreparedStep(man, Now());
      o := Record(CanonicalPrepared);
      if o == Done {
        o := Checks(1);
      }
    }

    /** The third phase: rename the verified stage to the canonical place, unless that was done before a crash. */
    method Publish() returns (o: Outcome)
      requires Valid() && phase == CanonicalPrepared
      modifies this`published, this`phase, this`history, this`faults, this`perils
      ensures Valid() && old(history) <= history && Ran() && Alive(o == Crashed) && perils == old(perils)
      ensures o == Done ==> phase == CanonicalPublished
      ensures o != Done ==> |faults| < |old(faults)| && phase == CanonicalPrepared
    {
      hide Valid, Sound, PlanOk, Originals, Folders, RecoveredTree, StageWhole, Perils, Grave, CutsMove, CutsMarker;
      NowSound();
      PhasesOk(man, Now());
      GraveCheck();
      o := Checks(1);
      if o != Done {
        return;
      }
      var e := Next(Check);
      if e == Crash {
        return Crashed;
      }
      if e == Go && !published {
        o := RenameStageOut();
        if o != Done {
          return;
        }
      } else {
        o := Checks(1);
        if o != Done {
          return;
        }
        if !published {
          return Failed;
        }
      }
      NowSound();
      PublishStep(man, Now());
      o := Record(CanonicalPublished);
    }

    method SetPublished()
      requires Valid() && Sound(man, Now().(published := true))
      modifies this`published, this`history
      ensures Valid() && old(history) <= history && published
    {
      hide Sound;
      published := true;
      history := history + [Now()];
    }

    method RenameStageOut() returns (o: Outcome)
      requires Valid() && phase == CanonicalPrepared && !published
      modifies this`published, this`history, this`faults, this`perils
      ensures Valid() && old(history) <= history && Ran() && Alive(o == Crashed) && perils == old(perils)
      ensures if o == Done then published else |faults| < |old(faults)|
    {
      hide Valid, Sound, PlanOk, Originals, Folders, RecoveredTree, StageWhole, Perils, Grave, CutsMove, CutsMarker;
      NowSound();
      PhasesOk(man, Now());
      GraveCheck();
      o := Checks(2);
      if o != Done {
        return;
      }
      if stage != Stage(Marked, Originals(man), Folders(man), 0) {
        return Failed;
      }
      var e := Next(RenameStage);
      if e != Go {
        return Ended(e);
      }
      PublishStep(man, Now());
      SetPublished();
      o := Checks(3);
    }

    /** Removes the marker from the published folder, unless that was done before. */
    method CleanMarker() returns (o: Outcome)
      requires Valid() && phase == CanonicalPublished
      modifies this`stage, this`history, this`faults, this`perils
      ensures Valid() && old(history) <= history && Ran() && Alive(o == Crashed) && perils == old(perils)
      ensures if o == Done then stage.mark == Cleaned else |faults| < |old(faults)|
    {
      hide Valid, Sound, PlanOk, Originals, Folders, RecoveredTree, StageWhole, Perils, Grave, CutsMove, CutsMarker;
      GraveCheck();
      NowSound();
      PhasesOk(man, Now());
      var e := Next(Check);
      if e != Go {
        return Ended(e);
      }
      if stage.mark == Marked {
        e := Next(RemoveMarker);
        if e != Go {
          return Ended(e);
        }
        CleanStep(man, Now());
        SetStage(stage.(mark := Cleaned));
      }
      o := Checks(1);
    }

    /** The last phase: remove the marker, verify both trees, record them, and complete the recovery. */
    method Complete() returns (o: Outcome)
      requires Valid() && phase == CanonicalPublished
      modifies this`stage, this`phase, this`history, this`faults, this`perils
      ensures Valid() && old(history) <= history && Ran() && Alive(o == Crashed) && perils == old(perils)
      ensures o == Done ==> phase == Completed
      ensures o != Done ==> |faults| < |old(faults)| && (phase == CanonicalPublished || phase == Completed)
    {
      hide Valid, Sound, PlanOk, Originals, Folders, RecoveredTree, StageWhole, Perils, CutsMove, CutsMarker;
      o := Checks(1);
      if o != Done {
        return;
      }
      o := CleanMarker();
      if o != Done {
        return;
      }
      NowSound();
      PhasesOk(man, Now());
      if tree != Tree(RecoveredTree(man), 0) || stage != Stage(Cleaned, Originals(man), Folders(man), 0) {
        return Failed;
      }
      o := Checks(5);
      if o != Done {
        return;
      }
      CleanStep(man, Now());
      o := Record(Completed);
    }

    /** The whole recovery, picked up at the recorded phase. */
    method Recover() returns (o: Outcome)
      requires Valid()
      modifies this`tree, this`place, this`stage, this`published, this`phase, this`history, this`faults, this`perils
      ensures Valid() && old(history) <= history && Ran() && Alive(o == Crashed)
      ensures o == Done ==> Now() == Recovered(man)
      ensures Stuck(man, Now()) <==> Stuck(man, old(Now())) || perils > old(perils)
      ensures !Stuck(man, old(Now())) && o != Done ==> |faults| < |old(faults)|
      ensures old(phase) == Prepared && old(place) == Hidden ==> Now() == old(Now())
      ensures !Stuck(man, old(Now())) && old(phase) == Prepared && CutsMove(old(faults)) && old(place) == Attempted ==>
        phase == Prepared && place == Hidden
      ensures
        !Stuck(man, old(Now())) && old(phase) == Prepared && CutsMarker(old(faults)) && old(stage).mark == Missing ==>
          Stuck(man, Now())
    {
      hide Valid, Sound, PlanOk, Originals, Folders, RecoveredTree, Stuck, Perils, CutsMove, CutsMarker;
      StuckIs(man, Now());
      o := Done;
      if phase == Prepared {
        o := Evacuate();
        StuckIs(man, Now());
      }
      if o == Done {
        o := Finish();
        StuckIs(man, Now());
      }
    }

    /** The phases after the evacuation. */
    method Finish() returns (o: Outcome)
      requires Valid() && phase != Prepared
      modifies this`stage, this`published, this`phase, this`history, this`faults, this`perils
      ensures Valid() && old(history) <= history && Ran() && Alive(o == Crashed) && perils == old(perils)
              && phase != Prepared
      ensures if o == Done then Now() == Recovered(man) else |faults| < |old(faults)|
    {
      hide Valid, Sound, PlanOk, Originals, Folders, RecoveredTree, Perils, CutsMove, CutsMarker;
      o := Done;
      if phase == Evacuated {
        o := PrepareCanonical();
      }
      if o == Done && phase == CanonicalPrepared {
        o := Publish();
      }
      if o == Done && phase == CanonicalPublished {
        o := Complete();
      }
      if o == Done {
        o := Checks(1);
      }
      NowSound();
      PhasesOk(man, Now());
    }

    /** Every sync cycle runs the recovery again until it is done. Given one cycle more than there are faults, it is
        done exactly if it was not stuck to begin with and no perilous fault struck; and at no point in between was an
        original byte lost. */
    method RecoverUntilDone(cycles: nat) returns (done: bool)
      requires Valid()
      modifies this`tree, this`place, this`stage, this`published, this`phase, this`history, this`faults, this`perils
      ensures Valid() && old(history) <= history && Ran() && Alive(false)
      ensures done ==> Now() == Recovered(man)
      ensures done ==> !Stuck(man, old(Now())) && perils == old(perils)
      ensures cycles > |old(faults)| && !Stuck(man, old(Now())) && perils == old(perils) ==> done
      ensures cycles > |old(faults)| && !Stuck(man, old(Now())) && Perils(old(faults)) == 0 ==> done
      ensures cycles > |old(faults)| && !done ==> Stuck(man, Now())
      ensures forall i :: 0 <= i < |history| ==> OriginalsKept(man, history[i])
    {
      hide Valid, Sound, PlanOk, OriginalsKept, Recovered, Stuck, Perils, CutsMove, CutsMarker;
      done := false;
      RecoveredFree(man);
      for i := 0 to cycles
        invariant Valid() && old(history) <= history && Ran() && Alive(false)
        invariant Stuck(man, Now()) <==> Stuck(man, old(Now())) || perils > old(perils)
        invariant if done then Now() == Recovered(man) else Stuck(man, Now()) || i + |faults| <= |old(faults)|
      {
        if !done {
          var o := Recover();
          done := o == Done;
        }
      }
      KeptAlong();
    }

    /** No rerun, whatever strikes it, moves a hidden folder, and none gets past anything that was left halfway. */
    method RerunStuck(n: nat)
      requires Valid() && Stuck(man, Now())
      modifies this`tree, this`place, this`stage, this`published, this`phase, this`history, this`faults, this`perils
      ensures Valid() && old(history) <= history && Stuck(man, Now()) && phase == Prepared
      ensures old(place) == Hidden ==> Now() == old(Now())
    {
      hide Valid, Sound, PlanOk, Stuck, Perils, CutsMove, CutsMarker;
      StuckIs(man, Now());
      for i := 0 to n
        invariant Valid() && old(history) <= history && Stuck(man, Now()) && phase == Prepared
        invariant old(place) == Hidden ==> Now() == old(Now())
      {
        var o := Recover();
        StuckIs(man, Now());
      }
    }

    lemma KeptAlong()
      requires Valid()
      ensures forall i :: 0 <= i < |history| ==> OriginalsKept(man, history[i])
    {
      hide Sound, OriginalsKept;
      forall i | 0 <= i < |history|
        ensures OriginalsKept(man, history[i])
      {
        TreeIs(man, history[i]);
      }
    }
  }

  /** A recovery that has just been prepared, cut short at its first perilous call: once between the two renames of the
      folder, or once between the stage directory and its marker. However often it is rerun after that, it never
      completes. */
  method CutShort(man: Plan, front: Frontmatter, faults: seq<Fault>, reruns: nat) returns (v: Vault)
    requires PlanOk(front, man) && (CutsMove(faults) || CutsMarker(faults))
    ensures v.Valid() && v.man == man && v.history[0] == Start(man) && v.phase == Prepared && Stuck(man, v.Now())
    ensures CutsMove(faults) ==> v.place == Hidden
  {
    hide PlanOk, Sound, AllSound, Stuck, CutsMove, CutsMarker, SourceTree, TreeBroken, StageBroken;
    StartSound(front, man);
    v := new Vault(man, front, Start(man), faults);
    var o := v.Recover();
    StuckIs(man, v.Now());
    v.RerunStuck(reruns);
  }
}
