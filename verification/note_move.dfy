/** Entry names of the vault's directories. */
module VaultNames {

  /** A directory entry: an ordinary name, or a hidden staging name with its random part. */
  datatype Name = Plain(dir: nat, base: string) | Hidden(dir: nat, token: nat)
}

/** Moving a note by staging, publishing without replacing, and recovering after a crash. */
module NoteMove {
  import opened Ids
  import opened VaultNames

  type Bytes = seq<Byte>

  /** The entries of the vault; hard links are entries with the same bytes, and bytes are never changed in place. */
  type Entries = map<Name, Bytes>

  /** What happens around the next filesystem call: nothing, another process creates a file before it, the call fails,
      or the client dies before it. */
  datatype Event = Quiet | Appear(name: Name, bytes: Bytes) | Fail | Crash

  datatype Outcome = Moved | Missing | Refused | Crashed

  /** Names of a directory that hold the bytes in staging. */
  function Staged(names: Entries, dir: nat, bytes: Bytes): set<Name> {
    set x | x in names && x.Hidden? && x.dir == dir && names[x] == bytes
  }

  /** The bytes are still reachable: under the source, a staging name of its directory, or the destination. */
  ghost predicate Held(names: Entries, source: Name, target: Name, bytes: Bytes) {
    || (source in names && names[source] == bytes)
    || (target in names && names[target] == bytes)
    || Staged(names, source.dir, bytes) != {}
  }

  /** One step of the protocol or of another process loses neither the bytes nor a published destination. */
  ghost predicate Keeps(a: Entries, b: Entries, source: Name, target: Name, bytes: Bytes) {
    && (Held(a, source, target, bytes) ==> Held(b, source, target, bytes))
    && (target in a ==> target in b && b[target] == a[target])
  }

  /** Every pair of neighbouring states from index `from` on. */
  ghost predicate KeepsAll(history: seq<Entries>, from: nat, source: Name, target: Name, bytes: Bytes) {
    forall k :: from < k < |history| ==> Keeps(history[k - 1], history[k], source, target, bytes)
  }

  /** `later` goes on from `earlier`, and every step since keeps. */
  ghost predicate Extends(earlier: seq<Entries>, later: seq<Entries>, source: Name, target: Name, bytes: Bytes) {
    earlier != [] && earlier <= later && KeepsAll(later, |earlier| - 1, source, target, bytes)
  }

  lemma ExtendsSelf(h: seq<Entries>, source: Name, target: Name, bytes: Bytes)
    requires h != []
    ensures Extends(h, h, source, target, bytes)
  {
  }

  lemma ExtendsOne(earlier: seq<Entries>, h: seq<Entries>, source: Name, target: Name, bytes: Bytes, now: Entries)
    requires Extends(earlier, h, source, target, bytes) && Keeps(h[|h| - 1], now, source, target, bytes)
    ensures Extends(earlier, h + [now], source, target, bytes)
  {
    hide Keeps;
  }

  lemma ExtendsOn(a: seq<Entries>, b: seq<Entries>, c: seq<Entries>, source: Name, target: Name, bytes: Bytes)
    requires Extends(a, b, source, target, bytes) && Extends(b, c, source, target, bytes)
    ensures Extends(a, c, source, target, bytes)
  {
    hide Keeps;
    forall k | |a| - 1 < k < |c|
      ensures Keeps(c[k - 1], c[k], source, target, bytes)
    {
      if k < |b| {
        assert Keeps(b[k - 1], b[k], source, target, bytes);
      }
    }
  }

  lemma {:induction false} KeepsBetween(history: seq<Entries>, from: nat, source: Name, target: Name, bytes: Bytes,
                                        i: nat, j: nat)
    requires KeepsAll(history, from, source, target, bytes) && from <= i <= j < |history|
    ensures Keeps(history[i], history[j], source, target, bytes)
  {
    hide Held;
    if i < j {
      KeepsBetween(history, from, source, target, bytes, i, j - 1);
      assert Keeps(history[j - 1], history[j], source, target, bytes);
    }
  }

  function Happens(names: Entries, script: seq<Event>): Entries {
    if script != [] && script[0].Appear? && script[0].name !in names && script[0].name.Plain?
    then names[script[0].name := script[0].bytes] else names
  }

  /** Whether a run without crashes and interference ends with the note at the destination. */
  predicate MoveSucceeds(names: Entries, source: Name, target: Name, bytes: Bytes) {
    if source in names then names[source] == bytes && target !in names
    else |Staged(names, source.dir, bytes)| == 1 && (target in names ==> names[target] == bytes)
  }

  /** The entries after such a run. */
  function MoveResult(names: Entries, source: Name, target: Name, bytes: Bytes): Entries {
    if source in names then (names - {source})[target := bytes]
    else (names - Staged(names, source.dir, bytes))[target := bytes]
  }

  /** The shape every run keeps that starts with nothing staged: at most one staged copy, and if the source is gone and
      nothing is staged, the destination has the bytes. */
  ghost predicate Shape(names: Entries, source: Name, target: Name, bytes: Bytes) {
    && |Staged(names, source.dir, bytes)| <= 1
    && (source !in names && Staged(names, source.dir, bytes) == {} ==> target in names && names[target] == bytes)
  }

  /** The source has got the staging name h besides its own. */
  predicate StagedTwice(before: Entries, now: Entries, source: Name, h: Name) {
    h.Hidden? && h.dir == source.dir && h !in before && source in before && now == before[h := before[source]]
  }

  /** The source has got the staging name h instead of its own. */
  predicate StagedOnce(before: Entries, now: Entries, source: Name, h: Name) {
    h.Hidden? && h.dir == source.dir && h !in before && source in before
        && now == (before - {source})[h := before[source]]
  }

  /** The link to the destination fails, and the client dies in the restore between linking the source and dropping the
      staged name. */
  const DIES_RESTORING: seq<Event> := [Quiet, Quiet, Quiet, Fail, Quiet, Crash]

  const DIES_STAGED: seq<Event> := [Quiet, Quiet, Crash]

  // ---------------------------------------------------------------- single steps

  lemma AppearKeeps(a: Entries, script: seq<Event>, source: Name, target: Name, bytes: Bytes)
    ensures Keeps(a, Happens(a, script), source, target, bytes)
    ensures Staged(Happens(a, script), source.dir, bytes) == Staged(a, source.dir, bytes)
  {
    if Happens(a, script) != a {
      var b := Happens(a, script);
      assert forall x :: x in Staged(a, source.dir, bytes) <==> x in Staged(b, source.dir, bytes);
    }
  }

  lemma PlaceholderKeeps(a: Entries, h: Name, source: Name, target: Name, bytes: Bytes)
    requires h !in a && h.Hidden? && source.Plain? && target.Plain? && bytes != []
    ensures Keeps(a, a[h := []], source, target, bytes)
            && Staged(a[h := []], source.dir, bytes) == Staged(a, source.dir, bytes)
  {
    assert forall x :: x in Staged(a, source.dir, bytes) <==> x in Staged(a[h := []], source.dir, bytes);
  }

  lemma RenameKeeps(a: Entries, h: Name, source: Name, target: Name, bytes: Bytes)
    requires h in a && a[h] == [] && h.Hidden? && h.dir == source.dir && source.Plain? && target.Plain?
             && source != target && bytes != []
    requires source in a
    ensures var b := (a - {source})[h := a[source]];
            && Keeps(a, b, source, target, bytes)
            && Staged(b, source.dir, bytes) == Staged(a, source.dir, bytes) + (if a[source] == bytes then {h} else {})
  {
    var b := (a - {source})[h := a[source]];
    assert forall x :: x in Staged(b, source.dir, bytes)
            <==> x in Staged(a, source.dir, bytes) || (x == h && a[source] == bytes);
    if a[source] == bytes {
      assert h in Staged(b, source.dir, bytes);
    }
  }

  lemma LinkKeeps(a: Entries, h: Name, at: Name, source: Name, target: Name, bytes: Bytes)
    requires h in a && at !in a && at.Plain? && source.Plain? && target.Plain?
    ensures Keeps(a, a[at := a[h]], source, target, bytes)
            && Staged(a[at := a[h]], source.dir, bytes) == Staged(a, source.dir, bytes)
  {
    assert forall x :: x in Staged(a, source.dir, bytes) <==> x in Staged(a[at := a[h]], source.dir, bytes);
  }

  lemma UnlinkKeeps(a: Entries, h: Name, source: Name, target: Name, bytes: Bytes)
    requires h in a && h.Hidden? && source.Plain? && target.Plain?
    requires a[h] != bytes || (source in a && source != h && a[source] == bytes) || (target in a && a[target] == bytes)
    ensures Keeps(a, a - {h}, source, target, bytes)
            && Staged(a - {h}, source.dir, bytes) == Staged(a, source.dir, bytes) - {h}
  {
    var b := a - {h};
    assert forall x :: x in Staged(b, source.dir, bytes) <==> x in Staged(a, source.dir, bytes) && x != h;
  }

  lemma {:induction false} TokensUsed(names: Entries, dir: nat, n: nat)
    requires forall i: nat :: i < n ==> Hidden(dir, i) in names
    ensures n <= |names|
  {
    if n > 0 {
      var x := Hidden(dir, n - 1);
      TokensUsed(names - {x}, dir, n - 1);
    }
  }

  class Volume {
    var names: Entries
    var script: seq<Event>
    ghost var history: seq<Entries>

    ghost predicate Valid()
      reads this
    {
      history != [] && history[|history| - 1] == names
    }

    /** The next filesystem call is about to run. */
    method Tick(ghost source: Name, ghost target: Name, ghost bytes: Bytes, ghost start: seq<Entries>)
      returns (crashed: bool, failed: bool)
      requires Valid() && Extends(start, history, source, target, bytes)
      modifies this
      ensures Valid() && Extends(start, history, source, target, bytes)
      ensures names == Happens(old(names), old(script))
              && Staged(names, source.dir, bytes) == Staged(old(names), source.dir, bytes)
      ensures crashed == (old(script) != [] && old(script)[0] == Crash)
      ensures failed == (old(script) != [] && old(script)[0] == Fail)
      ensures script == if old(script) == [] then [] else old(script)[1..]
    {
      crashed := script != [] && script[0] == Crash;
      failed := script != [] && script[0] == Fail;
      AppearKeeps(names, script, source, target, bytes);
      ExtendsOne(start, history, source, target, bytes, Happens(names, script));
      names := Happens(names, script);
      script := if script == [] then [] else script[1..];
      history := history + [names];
    }

    /** One filesystem call takes effect. */
    method Do(now: Entries, ghost source: Name, ghost target: Name, ghost bytes: Bytes, ghost start: seq<Entries>)
      requires Valid() && Extends(start, history, source, target, bytes) && Keeps(names, now, source, target, bytes)
      modifies this`names, this`history
      ensures Valid() && Extends(start, history, source, target, bytes) && names == now
    {
      ExtendsOne(start, history, source, target, bytes, now);
      names := now;
      history := history + [now];
    }

    /** An unused staging name; the random token of the code never repeats. */
    method FreshHidden(dir: nat) returns (h: Name)
      ensures h.Hidden? && h.dir == dir && h !in names
    {
      var n := 0;
      while Hidden(dir, n) in names
        invariant forall i: nat :: i < n ==> Hidden(dir, i) in names
        decreases |names| - n
      {
        TokensUsed(names, dir, n + 1);
        n := n + 1;
      }
      h := Hidden(dir, n);
    }

    /** The reserved name is given up; if even that fails it stays, empty. */
    method DropPlaceholder(h: Name, ghost source: Name, ghost target: Name, ghost bytes: Bytes,
                           ghost start: seq<Entries>) returns (crashed: bool)
      requires Valid() && Extends(start, history, source, target, bytes)
      requires h.Hidden? && h in names && names[h] == [] && source.Plain? && target.Plain? && bytes != []
      modifies this
      ensures Valid() && Extends(start, history, source, target, bytes)
      ensures crashed ==> old(script) != []
      ensures Staged(names, source.dir, bytes) == Staged(old(names), source.dir, bytes)
      ensures source in old(names) ==> source in names && names[source] == old(names)[source]
      ensures old(script) == [] ==> script == [] && names == old(names) - {h}
    {
      hide Keeps, KeepsAll, Staged, Extends;
      var failed: bool;
      crashed, failed := Tick(source, target, bytes, start);
      if !crashed && !failed {
        UnlinkKeeps(names, h, source, target, bytes);
        NotStaged(names, h, source.dir, bytes);
        Do(names - {h}, source, target, bytes, start);
      }
    }

    /** Give the source a staging name; a placeholder reserves it. */
    method StageAt(source: Name, ghost target: Name, ghost bytes: Bytes, ghost start: seq<Entries>)
      returns (o: Outcome, h: Name)
      requires Valid() && Extends(start, history, source, target, bytes)
      requires source.Plain? && target.Plain? && source != target && bytes != []
      modifies this
      ensures Valid() && Extends(start, history, source, target, bytes)
      ensures o == Moved || o == Missing || old(script) != []
      ensures old(script) == [] ==> script == []
      ensures o == Moved ==> h.Hidden? && h.dir == source.dir && h in names && h !in old(names) && source !in names
      ensures o == Moved ==>
        && Staged(names, source.dir, bytes)
           == Staged(old(names), source.dir, bytes) + (if names[h] == bytes then {h} else {})
        && (source in old(names) ==> names[h] == old(names)[source])
      ensures o != Moved ==> Staged(names, source.dir, bytes) == Staged(old(names), source.dir, bytes)
      ensures o != Moved && source in old(names) ==>
                source in names && names[source] == old(names)[source] && o != Missing
      ensures old(script) == [] && o == Moved ==>
                source in old(names) && names == (old(names) - {source})[h := old(names)[source]]
      ensures old(script) == [] && o == Missing ==> source !in old(names) && names == old(names)
      ensures [Quiet, Quiet] <= old(script) && source in old(names) ==>
        && o == Moved && script == old(script)[2..] && StagedOnce(old(names), names, source, h)
    {
      hide Keeps, KeepsAll, Staged, Extends;
      var crashed, failed := Tick(source, target, bytes, start);
      h := FreshHidden(source.dir);
      if crashed || failed {
        return if crashed then Crashed else Refused, h;
      }
      PlaceholderKeeps(names, h, source, target, bytes);
      Do(names[h := []], source, target, bytes, start);
      crashed, failed := Tick(source, target, bytes, start);
      if crashed {
        return Crashed, h;
      }
      if failed || source !in names {
        o := if failed then Refused else Missing;
        crashed := DropPlaceholder(h, source, target, bytes, start);
        return if crashed then Crashed else o, h;
      }
      RenameKeeps(names, h, source, target, bytes);
      Do((names - {source})[h := names[source]], source, target, bytes, start);
      o := Moved;
    }

    /** Put a staged file back under the source name, unless somebody took the name. */
    method RestoreAt(h: Name, source: Name, ghost target: Name, ghost bytes: Bytes, ghost start: seq<Entries>)
        returns (crashed: bool, restored: bool)
      requires Valid() && Extends(start, history, source, target, bytes)
      requires h.Hidden? && h in names && source.Plain? && target.Plain?
      modifies this
      ensures Valid() && Extends(start, history, source, target, bytes)
      ensures old(script) == [] ==> script == [] && !crashed
      ensures Staged(names, source.dir, bytes) == Staged(old(names), source.dir, bytes)
              || Staged(names, source.dir, bytes) == Staged(old(names), source.dir, bytes) - {h}
      ensures Staged(names, source.dir, bytes) != Staged(old(names), source.dir, bytes) ==>
                source in names && names[source] == bytes
      ensures source in old(names) ==> source in names
      ensures old(script) == [] && source !in old(names) ==>
                restored && names == (old(names) - {h})[source := old(names)[h]]
      ensures old(script) == [] && source in old(names) ==> !restored && names == old(names)
      ensures old(script) == [Quiet, Crash] && source !in old(names) ==>
                crashed && names == old(names)[source := old(names)[h]]
    {
      hide Keeps, KeepsAll, Extends;
      var failed: bool;
      restored := false;
      crashed, failed := Tick(source, target, bytes, start);
      if crashed || failed || source in names {
        return;
      }
      LinkKeeps(names, h, source, source, target, bytes);
      Do(names[source := names[h]], source, target, bytes, start);
      restored := true;
      crashed, failed := Tick(source, target, bytes, start);
      if crashed || failed {
        return;
      }
      UnlinkKeeps(names, h, source, target, bytes);
      Do(names - {h}, source, target, bytes, start);
    }

    /** The staged names whose bytes match: none, one, or too many. */
    method FindStagedMove(dir: nat, bytes: Bytes) returns (ambiguous: bool, found: bool, h: Name)
      ensures ambiguous <==> |Staged(names, dir, bytes)| > 1
      ensures !ambiguous ==> (found <==> |Staged(names, dir, bytes)| == 1)
      ensures !ambiguous && found ==> Staged(names, dir, bytes) == {h}
    {
      ambiguous, found, h := false, false, Hidden(dir, 0);
      ghost var all := Staged(names, dir, bytes);
      assert forall x :: x in all <==> x in names && x.Hidden? && x.dir == dir && names[x] == bytes;
      hide Staged;
      var todo := names.Keys;
      while todo != {}
        invariant todo <= names.Keys
        invariant forall x :: x in all ==> x in todo || (found && x == h)
        invariant found ==> h in all && h !in todo
        decreases |todo|
      {
        var x :| x in todo;
        todo := todo - {x};
        if x.Hidden? && x.dir == dir && names[x] == bytes {
          if found {
            TwoMembers(all, h, x);
            return true, found, h;
          }
          found, h := true, x;
        }
      }
      assert all == if found then {h} else {};
    }

    /** No source: finish the move from the one staged copy, if there is exactly one. */
    method RecoverStagedMove(ghost source: Name, dir: nat, target: Name, bytes: Bytes, ghost start: seq<Entries>)
      returns (o: Outcome)
      requires Valid() && Extends(start, history, source, target, bytes)
      requires source.Plain? && target.Plain? && source != target && bytes != [] && dir == source.dir
      modifies this
      ensures Valid() && Extends(start, history, source, target, bytes)
      ensures o == Moved ==> target in names && names[target] == bytes
      ensures Staged(names, source.dir, bytes) == Staged(old(names), source.dir, bytes)
              || (Staged(names, source.dir, bytes) == {} && target in names && names[target] == bytes)
      ensures source in old(names) ==> source in names
      ensures old(script) == [] && source !in old(names) ==>
        && script == [] && (o == Moved <==> MoveSucceeds(old(names), source, target, bytes))
        && names == (if o == Moved then MoveResult(old(names), source, target, bytes) else old(names))
    {
      hide Keeps, KeepsAll, Extends;
      var crashed, failed := Tick(source, target, bytes, start);
      if crashed || failed {
        return if crashed then Crashed else Refused;
      }
      var ambiguous, found, h := FindStagedMove(dir, bytes);
      if ambiguous {
        return Refused;
      }
      if !found {
        return Missing;
      }
      assert h in Staged(names, dir, bytes);
      crashed, failed := Tick(source, target, bytes, start);
      if crashed || failed {
        return if crashed then Crashed else Refused;
      }
      assert h in Staged(names, dir, bytes);
      if target in names {
        if names[target] != bytes {
          return Refused;
        }
      } else {
        LinkKeeps(names, h, target, source, target, bytes);
        Do(names[target := names[h]], source, target, bytes, start);
      }
      crashed, failed := Tick(source, target, bytes, start);
      if crashed || failed {
        return if crashed then Crashed else Refused;
      }
      assert h in Staged(names, dir, bytes);
      UnlinkKeeps(names, h, source, target, bytes);
      Do(names - {h}, source, target, bytes, start);
      o := Moved;
    }

    /** Move the note: stage, check the bytes, publish without replacing, drop the staged name. */
    method MoveExpected(source: Name, target: Name, bytes: Bytes) returns (o: Outcome)
      requires Valid() && source.Plain? && target.Plain? && source != target && bytes != []
      modifies this
      ensures Valid() && Extends(old(history), history, source, target, bytes)
      ensures o == Moved ==> target in names && names[target] == bytes
      ensures old(CleanStart(names, source, bytes)) ==> Shape(names, source, target, bytes)
      ensures old(script) == [] ==>
        && (o == Moved <==> MoveSucceeds(old(names), source, target, bytes))
        && names == (if o == Moved then MoveResult(old(names), source, target, bytes) else old(names))
      ensures old(CleanStart(names, source, bytes)) && old(script) == DIES_RESTORING ==>
        exists h :: StagedTwice(old(names), names, source, h)
      ensures source in old(names) && old(script) == DIES_STAGED ==>
                exists h :: StagedOnce(old(names), names, source, h)
    {
      hide Keeps, KeepsAll, Extends;
      ghost var start, before := history, names;
      ExtendsSelf(history, source, target, bytes);
      var staged, h := StageAt(source, target, bytes, start);
      if staged == Crashed || staged == Refused {
        return staged;
      }
      if staged == Missing {
        o := RecoverStagedMove(source, source.dir, target, bytes, start);
        return;
      }
      ghost var once := names;
      o := PublishStaged(h, source, target, bytes, start, before);
      if old(script) == DIES_RESTORING && source in before && before[source] == bytes {
        StagedAgain(before, once, names, source, bytes, h);
      }
    }

    /** The staged source is checked and published, or put back. */
    method PublishStaged(h: Name, source: Name, target: Name, bytes: Bytes, ghost start: seq<Entries>,
                         ghost before: Entries)
        returns (o: Outcome)
      requires Valid() && Extends(start, history, source, target, bytes)
      requires source.Plain? && target.Plain? && source != target && bytes != []
      requires h.Hidden? && h.dir == source.dir && h in names && h !in before && source !in names
      requires Staged(names, source.dir, bytes)
               == Staged(before, source.dir, bytes) + (if names[h] == bytes then {h} else {})
      modifies this
      ensures Valid() && Extends(start, history, source, target, bytes)
      ensures o == Moved ==> target in names && names[target] == bytes
      ensures CleanStart(before, source, bytes) && old(names)[h] == bytes ==> Shape(names, source, target, bytes)
      ensures old(script) == [] && source in before && old(names) == (before - {source})[h := before[source]] ==>
        && (o == Moved <==> MoveSucceeds(before, source, target, bytes))
        && names == (if o == Moved then MoveResult(before, source, target, bytes) else before)
      ensures old(script) == [Quiet, Fail, Quiet, Crash] && old(names)[h] == bytes ==>
                names == old(names)[source := bytes]
      ensures old(script) == [Crash] ==> names == old(names)
    {
      hide Keeps, KeepsAll, Extends, Staged;
      var crashed, failed := Tick(source, target, bytes, start);
      if crashed {
        return Crashed;
      }
      if failed || names[h] != bytes {
        var died, restored := RestoreAt(h, source, target, bytes, start);
        return if died then Crashed else Refused;
      }
      crashed, failed := Tick(source, target, bytes, start);
      if crashed {
        return Crashed;
      }
      if failed || target in names {
        var died, restored := RestoreAt(h, source, target, bytes, start);
        return if died then Crashed else Refused;
      }
      o := LinkAndDrop(h, source, target, bytes, start);
    }

    /** The destination is linked to the staged bytes, and the staged name dropped. */
    method LinkAndDrop(h: Name, ghost source: Name, target: Name, ghost bytes: Bytes, ghost start: seq<Entries>)
      returns (o: Outcome)
      requires Valid() && Extends(start, history, source, target, bytes)
      requires source.Plain? && target.Plain? && h.Hidden? && h in names && names[h] == bytes && target !in names
      modifies this
      ensures Valid() && Extends(start, history, source, target, bytes)
      ensures target in names && names[target] == bytes
      ensures Staged(names, source.dir, bytes) == Staged(old(names), source.dir, bytes)
              || Staged(names, source.dir, bytes) == Staged(old(names), source.dir, bytes) - {h}
      ensures old(script) == [] ==> o == Moved && names == (old(names) - {h})[target := bytes]
    {
      hide Keeps, KeepsAll, Extends, Staged;
      LinkKeeps(names, h, target, source, target, bytes);
      Do(names[target := names[h]], source, target, bytes, start);
      var crashed, failed := Tick(source, target, bytes, start);
      if crashed || failed {
        return if crashed then Crashed else Refused;
      }
      UnlinkKeeps(names, h, source, target, bytes);
      Do(names - {h}, source, target, bytes, start);
      o := Moved;
    }
  }

  /** Every run that starts with the bytes at the source and nothing staged keeps the shape a rerun can finish from. */
  ghost predicate CleanStart(names: Entries, source: Name, bytes: Bytes) {
    source in names && names[source] == bytes && Staged(names, source.dir, bytes) == {}
  }

  lemma StagedAgain(before: Entries, once: Entries, now: Entries, source: Name, bytes: Bytes, h: Name)
    requires StagedOnce(before, once, source, h) && before[source] == bytes && now == once[source := bytes]
    ensures StagedTwice(before, now, source, h)
  {
  }

  lemma TwoMembers(s: set<Name>, x: Name, y: Name)
    requires x in s && y in s && x != y
    ensures |s| > 1
  {
    assert {x, y} <= s;
    SubsetSize({x, y}, s);
  }

  lemma SubsetSize(a: set<Name>, b: set<Name>)
    requires a <= b
    ensures |a| <= |b|
  {
    assert b == a + (b - a);
  }

  lemma NotStaged(names: Entries, h: Name, dir: nat, bytes: Bytes)
    requires h in names && names[h] != bytes
    ensures Staged(names, dir, bytes) - {h} == Staged(names, dir, bytes)
  {
  }

  /** From any crash with the source gone, a staged copy there, and a destination that is free or already has the bytes,
      a quiet rerun succeeds; with the source still in place it succeeds exactly when the destination is free. */
  lemma RerunFinishes(names: Entries, source: Name, target: Name, bytes: Bytes)
    requires Shape(names, source, target, bytes)
    ensures source !in names && Staged(names, source.dir, bytes) != {} ==>
      (MoveSucceeds(names, source, target, bytes) <==> (target in names ==> names[target] == bytes))
    ensures source in names && names[source] == bytes ==>
              (MoveSucceeds(names, source, target, bytes) <==> target !in names)
  {
    if Staged(names, source.dir, bytes) != {} {
      var h :| h in Staged(names, source.dir, bytes);
      SubsetSize({h}, Staged(names, source.dir, bytes));
    }
  }

  /** A move with any interference and any crash, and then a quiet rerun. */
  method MoveAndRerun(v: Volume, source: Name, target: Name, bytes: Bytes)
    returns (first: Outcome, second: Outcome, ghost mid: Entries)
    requires v.Valid() && source.Plain? && target.Plain? && source != target && bytes != []
    requires CleanStart(v.names, source, bytes)
    modifies v
    ensures Extends(old(v.history), v.history, source, target, bytes) && mid in v.history
    ensures source !in mid && Staged(mid, source.dir, bytes) == {} ==> target in mid && mid[target] == bytes
    ensures source !in mid && Staged(mid, source.dir, bytes) != {} && (target in mid ==> mid[target] == bytes) ==>
              second == Moved
    ensures source in mid && mid[source] == bytes && target !in mid ==> second == Moved
    ensures second == Moved ==> target in v.names && v.names[target] == bytes
  {
    hide Staged, Extends;
    first := v.MoveExpected(source, target, bytes);
    mid := v.names;
    ghost var middle := v.history;
    RerunFinishes(mid, source, target, bytes);
    v.script := [];
    second := v.MoveExpected(source, target, bytes);
    ExtendsOn(old(v.history), middle, v.history, source, target, bytes);
    assert mid == middle[|middle| - 1];
    PrefixKeeps(middle, v.history, source, target, bytes);
  }

  lemma PrefixKeeps(earlier: seq<Entries>, later: seq<Entries>, source: Name, target: Name, bytes: Bytes)
    requires Extends(earlier, later, source, target, bytes)
    ensures earlier[|earlier| - 1] in later
  {
    assert later[|earlier| - 1] == earlier[|earlier| - 1];
  }

  /** The bytes are held at every point of the run, and a destination once there stays what it was. */
  lemma NothingLost(earlier: seq<Entries>, later: seq<Entries>, source: Name, target: Name, bytes: Bytes, i: nat,
                    j: nat)
    requires Extends(earlier, later, source, target, bytes) && |earlier| - 1 <= i <= j < |later|
    ensures Held(later[i], source, target, bytes) ==> Held(later[j], source, target, bytes)
    ensures target in later[i] ==> target in later[j] && later[j][target] == later[i][target]
  {
    KeepsBetween(later, |earlier| - 1, source, target, bytes, i, j);
  }

  /** With two staged copies and no source no rerun succeeds, although the bytes are held. */
  lemma TwoStagedCopiesBlock(names: Entries, source: Name, target: Name, bytes: Bytes, g: Name, h: Name)
    requires source !in names && g in Staged(names, source.dir, bytes) && h in Staged(names, source.dir, bytes)
             && g != h
    ensures Held(names, source, target, bytes) && !MoveSucceeds(names, source, target, bytes)
  {
    TwoMembers(Staged(names, source.dir, bytes), g, h);
  }

  /** How that comes about from a clean start: one run dies in a restore, leaving the source with two names, and its
      rerun dies right after giving it another staging name. */
  method DieTwice(v: Volume, source: Name, target: Name, bytes: Bytes)
    requires v.Valid() && source.Plain? && target.Plain? && source != target && bytes != []
    requires CleanStart(v.names, source, bytes) && target !in v.names
    modifies v
    ensures Extends(old(v.history), v.history, source, target, bytes)
    ensures source !in v.names && target !in v.names && Held(v.names, source, target, bytes)
    ensures !MoveSucceeds(v.names, source, target, bytes)
  {
    ghost var start, before := v.history, v.names;
    v.script := DIES_RESTORING;
    var o := v.MoveExpected(source, target, bytes);
    ghost var middle, cut := v.history, v.names;
    ghost var g :| StagedTwice(before, cut, source, g);
    v.script := DIES_STAGED;
    o := v.MoveExpected(source, target, bytes);
    ExtendsOn(start, middle, v.history, source, target, bytes);
    ghost var h :| StagedOnce(cut, v.names, source, h);
    TwiceThenOnce(before, cut, v.names, source, target, bytes, g, h);
    TwoStagedCopiesBlock(v.names, source, target, bytes, g, h);
  }

  lemma TwiceThenOnce(before: Entries, cut: Entries, now: Entries, source: Name, target: Name, bytes: Bytes, g: Name,
                      h: Name)
    requires source.Plain? && target.Plain? && source != target && source in before && before[source] == bytes
             && target !in before
    requires StagedTwice(before, cut, source, g) && StagedOnce(cut, now, source, h)
    ensures source !in now && target !in now && g != h && g in Staged(now, source.dir, bytes)
            && h in Staged(now, source.dir, bytes)
  {
  }
}
