/** Moving a directory, known by its inode, without ever replacing a name. */
module FolderMove {
  import opened VaultNames

  /** Directory entries by inode. */
  type Entries = map<Name, nat>

  /** Before the next call another process may create a directory or fill one, or the client may die. */
  datatype Event = Quiet | Appear(name: Name, inode: nat) | Fill(inode: nat) | Crash

  datatype Outcome = Arrived | Refused | Died

  /** No directory has two names. */
  predicate Injective(names: Entries) {
    forall x, y :: x in names && y in names && names[x] == names[y] ==> x == y
  }

  /** The directory has a name. */
  predicate Has(names: Entries, inode: nat) {
    exists x :: x in names && names[x] == inode
  }

  /** One step replaces no name, loses no directory and gives none a second name. */
  ghost predicate Keeps(a: Entries, b: Entries) {
    && (forall x :: x in a && x in b ==> a[x] == b[x])
    && (forall inode :: Has(a, inode) ==> Has(b, inode))
    && (Injective(a) ==> Injective(b))
  }

  /** Where the bound directory may be: source, destination, or a staging name of one of the given directories. */
  predicate AtOneOf(names: Entries, source: Name, target: Name, dirs: set<nat>, inode: nat) {
    exists x :: x in names && names[x] == inode && (x == source || x == target || (x.Hidden? && x.dir in dirs))
  }

  /** `later` goes on from `earlier`; every step since keeps, and the bound directory never leaves its places. */
  ghost predicate Extends(earlier: seq<Entries>, later: seq<Entries>, source: Name, target: Name, dirs: set<nat>,
                          inode: nat) {
    && earlier != [] && earlier <= later
    && (forall k :: |earlier| <= k < |later| ==> Keeps(later[k - 1], later[k]))
    && (AtOneOf(earlier[|earlier| - 1], source, target, dirs, inode) ==>
          forall k :: |earlier| <= k < |later| ==> AtOneOf(later[k], source, target, dirs, inode))
  }

  lemma ExtendsSelf(h: seq<Entries>, source: Name, target: Name, dirs: set<nat>, inode: nat)
    requires h != []
    ensures Extends(h, h, source, target, dirs, inode)
  {
  }

  lemma ExtendsOne(earlier: seq<Entries>, h: seq<Entries>, source: Name, target: Name, dirs: set<nat>, inode: nat,
                   now: Entries)
    requires Extends(earlier, h, source, target, dirs, inode) && Keeps(h[|h| - 1], now)
    requires AtOneOf(h[|h| - 1], source, target, dirs, inode) ==> AtOneOf(now, source, target, dirs, inode)
    ensures Extends(earlier, h + [now], source, target, dirs, inode)
  {
    hide Keeps, AtOneOf;
  }

  function Happens(names: Entries, script: seq<Event>): Entries {
    if script != [] && script[0].Appear? && script[0].name !in names && script[0].name.Plain?
        && script[0].inode !in names.Values
    then names[script[0].name := script[0].inode] else names
  }

  /** A place keeps its directory while its entry stays. */
  lemma StaysAt(a: Entries, b: Entries, source: Name, target: Name, dirs: set<nat>, inode: nat)
    requires forall x :: x in a ==> x in b && b[x] == a[x]
    ensures AtOneOf(a, source, target, dirs, inode) ==> AtOneOf(b, source, target, dirs, inode)
    ensures forall n :: Has(a, n) ==> Has(b, n)
  {
    forall n | Has(a, n)
      ensures Has(b, n)
    {
      var x :| x in a && a[x] == n;
      assert b[x] == n;
    }
    if AtOneOf(a, source, target, dirs, inode) {
      var x :| x in a && a[x] == inode && (x == source || x == target || (x.Hidden? && x.dir in dirs));
      assert b[x] == inode;
    }
  }

  lemma AppearKeeps(a: Entries, script: seq<Event>, source: Name, target: Name, dirs: set<nat>, inode: nat)
    ensures Keeps(a, Happens(a, script))
    ensures AtOneOf(a, source, target, dirs, inode) ==> AtOneOf(Happens(a, script), source, target, dirs, inode)
  {
    var b := Happens(a, script);
    StaysAt(a, b, source, target, dirs, inode);
    assert forall x :: x in a ==> a[x] in a.Values;
    hide AtOneOf, Has;
  }

  /** A directory that has a name keeps one and gets no other. */
  ghost predicate NoNewPlace(a: Entries, b: Entries, inode: nat) {
    Has(a, inode) ==> Has(b, inode) && forall x :: x in b && b[x] == inode ==> x in a && a[x] == inode
  }

  lemma PlacesStay(a: Entries, script: seq<Event>, inode: nat)
    ensures NoNewPlace(a, Happens(a, script), inode)
  {
    if Has(a, inode) {
      var x :| x in a && a[x] == inode;
      assert inode in a.Values;
      assert x in Happens(a, script) && Happens(a, script)[x] == inode;
    }
  }

  /** Interference takes no name away and makes no staging name. */
  predicate Grew(a: Entries, b: Entries) {
    (forall x :: x in a ==> x in b && b[x] == a[x]) && forall x :: x in b && x.Hidden? ==> x in a
  }

  lemma HappensGrew(a: Entries, script: seq<Event>)
    ensures Grew(a, Happens(a, script))
  {
  }

  lemma GrewTwice(a: Entries, b: Entries, c: Entries)
    requires Grew(a, b) && Grew(b, c)
    ensures Grew(a, c)
  {
  }

  lemma GrewAt(a: Entries, b: Entries, x: Name)
    requires Grew(a, b)
    ensures x in a ==> x in b && b[x] == a[x]
    ensures x.Hidden? && x !in a ==> x !in b
  {
  }

  lemma NoPlaceTwice(a: Entries, b: Entries, c: Entries, inode: nat)
    requires NoNewPlace(a, b, inode) && NoNewPlace(b, c, inode)
    ensures NoNewPlace(a, c, inode)
  {
    hide Has;
  }

  lemma NotThereNow(a: Entries, b: Entries, inode: nat, x: Name)
    requires NoNewPlace(a, b, inode) && Has(a, inode)
    ensures x in b && b[x] == inode ==> x in a && a[x] == inode
    ensures Has(b, inode)
  {
    hide Has;
  }

  /** A rename to a free name. */
  function Renamed(names: Entries, from: Name, to: Name): Entries
    requires from in names
  {
    (names - {from})[to := names[from]]
  }

  lemma RenameHas(a: Entries, from: Name, to: Name, n: nat)
    requires from in a && to !in a && Has(a, n)
    ensures Has(Renamed(a, from, to), n)
  {
    var b := Renamed(a, from, to);
    var x :| x in a && a[x] == n;
    assert to in b && b[to] == a[from] && (x != from ==> x in b && b[x] == n);
  }

  lemma RenamePlaced(a: Entries, from: Name, to: Name, source: Name, target: Name, dirs: set<nat>, inode: nat)
    requires from in a && to !in a && (to == source || to == target || (to.Hidden? && to.dir in dirs))
    requires AtOneOf(a, source, target, dirs, inode)
    ensures AtOneOf(Renamed(a, from, to), source, target, dirs, inode)
  {
    var b := Renamed(a, from, to);
    var x :| x in a && a[x] == inode && (x == source || x == target || (x.Hidden? && x.dir in dirs));
    assert to in b && b[to] == a[from] && (x != from ==> x in b && b[x] == inode);
  }

  lemma RenameKeeps(a: Entries, from: Name, to: Name, source: Name, target: Name, dirs: set<nat>, inode: nat)
    requires from in a && to !in a && (to == source || to == target || (to.Hidden? && to.dir in dirs))
    ensures Keeps(a, Renamed(a, from, to))
    ensures AtOneOf(a, source, target, dirs, inode) ==> AtOneOf(Renamed(a, from, to), source, target, dirs, inode)
  {
    hide Has, AtOneOf;
    forall n | Has(a, n)
      ensures Has(Renamed(a, from, to), n)
    {
      RenameHas(a, from, to, n);
    }
    if AtOneOf(a, source, target, dirs, inode) {
      RenamePlaced(a, from, to, source, target, dirs, inode);
    }
  }

  /** The staging names of a directory that hold the inode. */
  predicate StagedAt(names: Entries, dir: nat, inode: nat, x: Name) {
    x in names && x.Hidden? && x.dir == dir && names[x] == inode
  }

  /** Whether a quiet run of the non-empty form ends with the directory at the destination. */
  predicate FolderArrives(names: Entries, source: Name, target: Name, inode: nat) {
    || (target in names && names[target] == inode)
    || (target !in names
        && ((exists x :: x in names && StagedAt(names, source.dir, inode, x))
            || (source in names && names[source] == inode)))
  }

  /** The directories whose staging names a move may use; only the empty form may have to go back. */
  function Dirs(source: Name, target: Name, requireEmpty: bool): set<nat> {
    if requireEmpty then {source.dir, target.dir} else {source.dir}
  }

  lemma AtTarget(names: Entries, source: Name, target: Name, inode: nat)
    requires target in names && names[target] == inode
    ensures AtOneOf(names, target, source, {target.dir}, inode)
  {
  }

  /** A run back to the source, started at the destination, stays within the places of the run forth. */
  lemma Widen(earlier: seq<Entries>, later: seq<Entries>, source: Name, target: Name, inode: nat)
    requires Extends(earlier, later, target, source, {target.dir}, inode)
             && AtOneOf(earlier[|earlier| - 1], target, source, {target.dir}, inode)
    ensures Extends(earlier, later, source, target, {source.dir, target.dir}, inode)
  {
    hide Keeps;
    forall k | |earlier| <= k < |later|
      ensures AtOneOf(later[k], source, target, {source.dir, target.dir}, inode)
    {
      assert AtOneOf(later[k], target, source, {target.dir}, inode);
    }
  }

  lemma ExtendsOn(a: seq<Entries>, b: seq<Entries>, c: seq<Entries>, source: Name, target: Name, dirs: set<nat>,
                  inode: nat)
    requires Extends(a, b, source, target, dirs, inode) && Extends(b, c, source, target, dirs, inode)
    ensures Extends(a, c, source, target, dirs, inode)
  {
    hide Keeps, AtOneOf;
    forall k | |a| <= k < |c|
      ensures Keeps(c[k - 1], c[k])
    {
      if k < |b| {
        assert Keeps(b[k - 1], b[k]);
      }
    }
    if AtOneOf(a[|a| - 1], source, target, dirs, inode) {
      assert |b| > |a| ==> AtOneOf(b[|b| - 1], source, target, dirs, inode);
      assert b[|a| - 1] == a[|a| - 1];
      forall k | |a| <= k < |c|
        ensures AtOneOf(c[k], source, target, dirs, inode)
      {
        if k < |b| {
          assert AtOneOf(b[k], source, target, dirs, inode);
        }
      }
    }
  }

  predicate At(names: Entries, x: Name, inode: nat) {
    x in names && names[x] == inode
  }

  /** The directory has a name, or its source or its destination is taken. */
  predicate Grounded(names: Entries, source: Name, target: Name, inode: nat) {
    Has(names, inode) || source in names || target in names
  }

  lemma Nowhere(names: Entries, inode: nat)
    requires !Has(names, inode)
    ensures inode !in names.Values && forall x :: x in names ==> names[x] != inode
  {
  }

  /** The directory is at the destination, or can be brought there while the source is missing. */
  predicate Comes(names: Entries, source: Name, target: Name, inode: nat) {
    source !in names && (At(names, target, inode) || (target !in names && !Has(names, inode)))
  }

  lemma ComesLater(a: Entries, b: Entries, source: Name, target: Name, inode: nat)
    requires Grew(a, b) && NoNewPlace(a, b, inode)
    ensures Grounded(a, source, target, inode) && !At(a, target, inode) ==> !Comes(b, source, target, inode)
  {
  }

  lemma NotComing(a: Entries, b: Entries, source: Name, target: Name, inode: nat)
    requires Grew(a, b) && NoNewPlace(a, b, inode) && source !in a && !Comes(a, source, target, inode)
    ensures !At(b, target, inode)
  {
  }

  /** Somebody brings the directory to the destination right after the move looked for its source. */
  function BroughtLate(target: Name, inode: nat): seq<Event> {
    [Quiet, Quiet, Quiet, Appear(target, inode)]
  }

  class Volume {
    var names: Entries
    var full: set<nat>
    var script: seq<Event>
    ghost var history: seq<Entries>

    ghost predicate Valid()
      reads this
    {
      history != [] && history[|history| - 1] == names
    }

    /** The next filesystem call is about to run. */
    method Tick(ghost source: Name, ghost target: Name, ghost dirs: set<nat>, ghost inode: nat,
                ghost start: seq<Entries>)
        returns (crashed: bool)
      requires Valid() && Extends(start, history, source, target, dirs, inode)
      modifies this
      ensures Valid() && Extends(start, history, source, target, dirs, inode)
      ensures names == Happens(old(names), old(script)) && Keeps(old(names), names)
      ensures AtOneOf(old(names), source, target, dirs, inode) ==> AtOneOf(names, source, target, dirs, inode)
      ensures crashed == (old(script) != [] && old(script)[0] == Crash)
      ensures old(script) == [] ==> script == [] && full == old(full)
      ensures NoNewPlace(old(names), names, inode) && Grew(old(names), names)
      ensures old(script) != [] ==>
        script == old(script)[1..]
        && full == old(full) + (if old(script)[0].Fill? then {old(script)[0].inode} else {})
    {
      hide Extends, Keeps, AtOneOf, Happens, NoNewPlace, Grew;
      PlacesStay(names, script, inode);
      HappensGrew(names, script);
      crashed := script != [] && script[0] == Crash;
      AppearKeeps(names, script, source, target, dirs, inode);
      ExtendsOne(start, history, source, target, dirs, inode, Happens(names, script));
      if script != [] && script[0].Fill? {
        full := full + {script[0].inode};
      }
      names := Happens(names, script);
      script := if script == [] then [] else script[1..];
      history := history + [names];
    }

    /** Rename without replacing: refused when the old name is missing or the new one taken. */
    method Rename(from: Name, to: Name, ghost source: Name, ghost target: Name, ghost dirs: set<nat>, ghost inode: nat,
                  ghost start: seq<Entries>) returns (ok: bool)
      requires Valid() && Extends(start, history, source, target, dirs, inode)
      requires to == source || to == target || (to.Hidden? && to.dir in dirs)
      modifies this`names, this`history
      ensures Valid() && Extends(start, history, source, target, dirs, inode)
      ensures ok <==> from in old(names) && to !in old(names)
      ensures names == if ok then Renamed(old(names), from, to) else old(names)
      ensures AtOneOf(old(names), source, target, dirs, inode) ==> AtOneOf(names, source, target, dirs, inode)
    {
      hide Extends, Keeps, AtOneOf, Renamed;
      ok := from in names && to !in names;
      if ok {
        RenameKeeps(names, from, to, source, target, dirs, inode);
        ExtendsOne(start, history, source, target, dirs, inode, Renamed(names, from, to));
        names := Renamed(names, from, to);
        history := history + [names];
      }
    }

    method FreshHidden(dir: nat) returns (h: Name)
      ensures h.Hidden? && h.dir == dir && h !in names
    {
      var n := 0;
      while Hidden(dir, n) in names
        invariant forall i: nat :: i < n ==> Hidden(dir, i) in names
        decreases |names| - n
      {
        InodeTokens(names, dir, n + 1);
        n := n + 1;
      }
      h := Hidden(dir, n);
    }

    /** The staging name of the directory, if there is one; two are refused. */
    method FindStagedFolder(dir: nat, inode: nat) returns (ambiguous: bool, found: bool, h: Name)
      ensures ambiguous ==> exists x, y :: x != y && StagedAt(names, dir, inode, x) && StagedAt(names, dir, inode, y)
      ensures !ambiguous && found ==> forall x :: StagedAt(names, dir, inode, x) ==> x == h
      ensures Injective(names) ==> !ambiguous
      ensures !ambiguous && found ==> StagedAt(names, dir, inode, h)
      ensures !ambiguous && !found ==> forall x :: x in names ==> !StagedAt(names, dir, inode, x)
    {
      ambiguous, found, h := false, false, Hidden(dir, 0);
      var todo := names.Keys;
      while todo != {}
        invariant todo <= names.Keys
        invariant forall x :: x in names && StagedAt(names, dir, inode, x) ==> x in todo || (found && x == h)
        invariant found ==> StagedAt(names, dir, inode, h) && h !in todo
        decreases |todo|
      {
        var x :| x in todo;
        todo := todo - {x};
        if x.Hidden? && x.dir == dir && names[x] == inode {
          if found {
            assert x != h && StagedAt(names, dir, inode, x) && StagedAt(names, dir, inode, h);
            return true, found, h;
          }
          found, h := true, x;
        }
      }
    }

    /** Move the directory with this inode; `requireEmpty` takes a directory back that turned out not to be empty. */
    method MoveExpected(source: Name, target: Name, inode: nat, requireEmpty: bool) returns (o: Outcome)
      requires Valid() && source.Plain? && target.Plain? && source != target
      modifies this
      ensures Valid() && Extends(old(history), history, source, target, Dirs(source, target, requireEmpty), inode)
      ensures o == Arrived ==> target in names && names[target] == inode
      ensures old(script) == [] && old(Injective(names)) && !requireEmpty ==>
        (o == Arrived <==> old(FolderArrives(names, source, target, inode)))
      ensures old(script) == [] && old(Injective(names)) && requireEmpty ==>
        && (o == Arrived <==> old(FolderArrives(names, source, target, inode)) && inode !in old(full))
        && (old(FolderArrives(names, source, target, inode)) && inode in old(full)
            && (source in old(names) ==> old(names)[source] == inode) ==>
              o == Refused && source in names && names[source] == inode)
      ensures old(script) == [] ==> o != Died && full == old(full)
      ensures requireEmpty && o == Arrived && old(Grounded(names, source, target, inode)) ==> inode !in full
      ensures !old(Grounded(names, source, target, inode)) && old(script) == BroughtLate(target, inode) ==>
                o == Arrived && full == old(full)
      decreases if requireEmpty then 1 else 0
    {
      ghost var dirs := Dirs(source, target, requireEmpty);
      ghost var start, before := history, names;
      hide Extends, Keeps, AtOneOf, Has, NoNewPlace, Grew;
      ExtendsSelf(history, source, target, dirs, inode);
      var crashed := Tick(source, target, dirs, inode, start);
      GrewAt(before, names, source);
      GrewAt(before, names, target);
      if Has(before, inode) {
        NotThereNow(before, names, inode, target);
      }
      if crashed {
        return Died;
      }
      if target in names && names[target] == inode {
        if !requireEmpty {
          return Arrived;
        }
        o := KeepIfEmpty(source, target, inode, start);
        return;
      }
      var staged, h;
      o, staged, h := StageFolder(source, target, inode, requireEmpty, start);
      if staged {
        o := PublishStaged(h, source, target, inode, requireEmpty, start);
      }
    }

    /** A directory at the destination that must be empty is taken back when it is not. */
    method KeepIfEmpty(source: Name, target: Name, inode: nat, ghost start: seq<Entries>) returns (o: Outcome)
      requires Valid() && Extends(start, history, source, target, {source.dir, target.dir}, inode)
      requires source.Plain? && target.Plain? && source != target && target in names && names[target] == inode
      modifies this
      ensures Valid() && Extends(start, history, source, target, {source.dir, target.dir}, inode)
      ensures o == Arrived ==> target in names && names[target] == inode && inode !in full
      ensures old(script) == [] ==> o != Died && full == old(full) && (o == Arrived <==> inode !in old(full))
      ensures old(script) == [] && inode in old(full) && old(Injective(names)) && source !in old(names) ==>
        o == Refused && source in names && names[source] == inode
      decreases 1, 0
    {
      hide Extends, Keeps, AtOneOf, Has, NoNewPlace;
      var crashed := Tick(source, target, {source.dir, target.dir}, inode, start);
      if crashed {
        return Died;
      }
      if inode !in full {
        return Arrived;
      }
      ghost var middle := history;
      AtTarget(names, source, target, inode);
      o := MoveExpected(target, source, inode, false);
      Widen(middle, history, source, target, inode);
      ExtendsOn(start, middle, history, source, target, {source.dir, target.dir}, inode);
      if o == Arrived {
        o := Refused;
      }
    }

    /** Find the staged directory, or stage the source. */
    method StageFolder(source: Name, target: Name, inode: nat, requireEmpty: bool, ghost start: seq<Entries>)
        returns (o: Outcome, staged: bool, h: Name)
      requires Valid() && Extends(start, history, source, target, Dirs(source, target, requireEmpty), inode)
      requires source.Plain? && target.Plain? && source != target
      modifies this
      ensures Valid() && Extends(start, history, source, target, Dirs(source, target, requireEmpty), inode)
      ensures staged ==> h.Hidden? && h.dir == source.dir && h in names
      ensures !staged && o == Arrived ==> target in names && names[target] == inode
      ensures old(script) == [] ==> script == []
      ensures old(script) == [] && old(Injective(names)) && !(target in old(names) && old(names)[target] == inode) ==>
        && (staged && names[h] == inode <==>
              (exists x :: x in old(names) && StagedAt(old(names), source.dir, inode, x))
                  || (source in old(names) && old(names)[source] == inode))
        && (target in names) == (target in old(names))
        && (!staged ==> o != Arrived)
        && (staged && names[h] == inode ==>
              (source in old(names) ==> old(names)[source] == inode) ==> source !in names)
      ensures old(script) == [] ==> (staged || o != Died) && full == old(full)
      ensures old(Grounded(names, source, target, inode)) && !At(old(names), target, inode) ==> staged || o != Arrived
      ensures !old(Grounded(names, source, target, inode)) && old(script) == BroughtLate(target, inode)[1..] ==>
                !staged && o == Arrived && full == old(full)
    {
      hide Extends, Keeps, AtOneOf, Has, NoNewPlace, Grew, Comes;
      ghost var dirs := Dirs(source, target, requireEmpty);
      ghost var before := names;
      if !Has(names, inode) {
        Nowhere(names, inode);
      }
      var crashed := Tick(source, target, dirs, inode, start);
      ComesLater(before, names, source, target, inode);
      o, staged, h := Died, false, Hidden(source.dir, 0);
      if crashed {
        return;
      }
      var ambiguous, found, candidate := FindStagedFolder(source.dir, inode);
      if ambiguous {
        return Refused, false, h;
      }
      if found {
        return Arrived, true, candidate;
      }
      o, staged, h := StageSource(source, target, inode, requireEmpty, start);
    }

    /** Rename the source to a staging name; if it is gone, the directory may be at the destination by now. */
    method StageSource(source: Name, target: Name, inode: nat, requireEmpty: bool, ghost start: seq<Entries>)
        returns (o: Outcome, staged: bool, h: Name)
      requires Valid() && Extends(start, history, source, target, Dirs(source, target, requireEmpty), inode)
      requires source.Plain? && target.Plain? && source != target
      modifies this
      ensures Valid() && Extends(start, history, source, target, Dirs(source, target, requireEmpty), inode)
      ensures staged ==> h.Hidden? && h.dir == source.dir && h in names
      ensures !staged && o == Arrived ==> target in names && names[target] == inode
      ensures old(script) == [] ==>
        && script == [] && full == old(full) && (staged <==> source in old(names)) && (staged || o != Died)
        && names == if staged then Renamed(old(names), source, h) else old(names)
      ensures Comes(old(names), source, target, inode) || staged || o != Arrived
      ensures !old(Grounded(names, source, target, inode)) && old(script) == BroughtLate(target, inode)[2..] ==>
                !staged && o == Arrived && full == old(full)
    {
      hide Extends, Keeps, AtOneOf, Has, NoNewPlace, Grew, Comes;
      ghost var dirs := Dirs(source, target, requireEmpty);
      ghost var before := names;
      if !Has(names, inode) {
        Nowhere(names, inode);
      }
      staged := false;
      h := FreshHidden(source.dir);
      var crashed := Tick(source, target, dirs, inode, start);
      if crashed {
        return Died, false, h;
      }
      GrewAt(before, names, source);
      GrewAt(before, names, h);
      ghost var two := names;
      var ok := Rename(source, h, source, target, dirs, inode, start);
      if ok {
        return Arrived, true, h;
      }
      crashed := Tick(source, target, dirs, inode, start);
      NoPlaceTwice(before, two, names, inode);
      GrewTwice(before, two, names);
      if !Comes(before, source, target, inode) {
        NotComing(before, names, source, target, inode);
      }
      if crashed {
        return Died, false, h;
      }
      o := if source !in names && target in names && names[target] == inode then Arrived else Refused;
    }

    /** The staged directory is checked and published, or put back. */
    method PublishStaged(h: Name, source: Name, target: Name, inode: nat, requireEmpty: bool,
                         ghost start: seq<Entries>) returns (o: Outcome)
      requires Valid() && Extends(start, history, source, target, Dirs(source, target, requireEmpty), inode)
      requires source.Plain? && target.Plain? && source != target && h.Hidden? && h.dir == source.dir && h in names
      modifies this
      ensures Valid() && Extends(start, history, source, target, Dirs(source, target, requireEmpty), inode)
      ensures o == Arrived ==> target in names && names[target] == inode
      ensures old(script) == [] && !requireEmpty ==> (o == Arrived <==> old(names)[h] == inode && target !in old(names))
      ensures old(script) == [] ==> o != Died && full == old(full)
      ensures requireEmpty && o == Arrived ==> inode !in full
      ensures old(script) == [] && requireEmpty ==>
        && (o == Arrived <==> old(names)[h] == inode && inode !in old(full) && target !in old(names))
        && (old(names)[h] == inode && inode in old(full) && source !in old(names) ==>
              o == Refused && source in names && names[source] == inode)
      decreases if requireEmpty then 1 else 0, 1
    {
      hide Extends, Keeps, AtOneOf, Has, NoNewPlace;
      ghost var dirs := Dirs(source, target, requireEmpty);
      var crashed := Tick(source, target, dirs, inode, start);
      if crashed {
        return Died;
      }
      if names[h] != inode || (requireEmpty && inode in full) {
        crashed := Tick(source, target, dirs, inode, start);
        if crashed {
          return Died;
        }
        var restored := Rename(h, source, source, target, dirs, inode, start);
        return Refused;
      }
      crashed := Tick(source, target, dirs, inode, start);
      if crashed {
        return Died;
      }
      var ok := Rename(h, target, source, target, dirs, inode, start);
      if !ok {
        return Refused;
      }
      crashed := Tick(source, target, dirs, inode, start);
      if crashed {
        return Died;
      }
      if requireEmpty {
        o := KeepIfEmpty(source, target, inode, start);
        return;
      }
      o := Arrived;
    }
  }

  lemma {:induction false} InodeTokens(names: Entries, dir: nat, n: nat)
    requires forall i: nat :: i < n ==> Hidden(dir, i) in names
    ensures n <= |names|
  {
    if n > 0 {
      InodeTokens(names - {Hidden(dir, n - 1)}, dir, n - 1);
    }
  }

  lemma {:induction false} InjectiveKept(earlier: seq<Entries>, later: seq<Entries>, source: Name, target: Name,
                                         dirs: set<nat>, inode: nat, k: nat)
    requires Extends(earlier, later, source, target, dirs, inode) && Injective(earlier[|earlier| - 1])
             && |earlier| - 1 <= k < |later|
    ensures Injective(later[k])
  {
    hide AtOneOf, Injective;
    if k == |earlier| - 1 {
      assert later[k] == earlier[k];
    } else {
      InjectiveKept(earlier, later, source, target, dirs, inode, k - 1);
      assert Keeps(later[k - 1], later[k]);
    }
  }

  /** At every point of a run the bound directory has exactly one name, and it is the source, the destination or a
      staging name. */
  lemma OnePlace(earlier: seq<Entries>, later: seq<Entries>, source: Name, target: Name, dirs: set<nat>, inode: nat,
                 k: nat)
    requires Extends(earlier, later, source, target, dirs, inode) && |earlier| - 1 <= k < |later|
    requires Injective(earlier[|earlier| - 1]) && AtOneOf(earlier[|earlier| - 1], source, target, dirs, inode)
    ensures exists x :: x in later[k] && later[k][x] == inode
             && (x == source || x == target || (x.Hidden? && x.dir in dirs))
                    && forall y :: y in later[k] && later[k][y] == inode ==> y == x
  {
    InjectiveKept(earlier, later, source, target, dirs, inode, k);
    assert AtOneOf(later[k], source, target, dirs, inode) by {
      hide AtOneOf, Keeps;
      if k == |earlier| - 1 { assert later[k] == earlier[k]; }
    }
    hide Extends;
    var x :| x in later[k] && later[k][x] == inode && (x == source || x == target || (x.Hidden? && x.dir in dirs));
  }

  lemma ArrivesFrom(names: Entries, source: Name, target: Name, inode: nat)
    requires AtOneOf(names, source, target, {source.dir}, inode) && (target in names ==> names[target] == inode)
    ensures FolderArrives(names, source, target, inode)
  {
    var x :| x in names && names[x] == inode && (x == source || x == target || (x.Hidden? && x.dir in {source.dir}));
    if x != source && x != target {
      assert StagedAt(names, source.dir, inode, x);
    }
  }

  /** A move with any interference and any crash, then a quiet rerun: the directory ends at the destination if that was
      free or already its place, from every crash point and after success too. */
  method MoveAndRerun(v: Volume, source: Name, target: Name, inode: nat)
    returns (first: Outcome, second: Outcome, ghost mid: Entries)
    requires v.Valid() && source.Plain? && target.Plain? && source != target
    requires Injective(v.names) && AtOneOf(v.names, source, target, {source.dir}, inode)
    modifies v
    ensures Extends(old(v.history), v.history, source, target, {source.dir}, inode)
    ensures (target in mid ==> mid[target] == inode) ==> second == Arrived
    ensures second == Arrived ==> target in v.names && v.names[target] == inode
  {
    hide Extends, AtOneOf, Injective, FolderArrives;
    ghost var start := v.history;
    first := v.MoveExpected(source, target, inode, false);
    mid := v.names;
    ghost var middle := v.history;
    StillPlaced(start, middle, source, target, {source.dir}, inode);
    InjectiveKept(start, middle, source, target, {source.dir}, inode, |middle| - 1);
    if target in mid ==> mid[target] == inode {
      ArrivesFrom(mid, source, target, inode);
    }
    v.script := [];
    second := v.MoveExpected(source, target, inode, false);
    ExtendsOn(start, middle, v.history, source, target, {source.dir}, inode);
  }

  lemma StillPlaced(earlier: seq<Entries>, later: seq<Entries>, source: Name, target: Name, dirs: set<nat>, inode: nat)
    requires Extends(earlier, later, source, target, dirs, inode)
             && AtOneOf(earlier[|earlier| - 1], source, target, dirs, inode)
    ensures AtOneOf(later[|later| - 1], source, target, dirs, inode) && |later| >= |earlier| > 0
  {
    hide AtOneOf, Keeps;
    if |later| == |earlier| { assert later == earlier; }
  }

  /** Where neither the directory nor the source nor the destination has a name when the move starts, it may arrive
      without being looked at, although it had to be empty: somebody else brings it to the destination after the source
      was not found. */
  method ArrivesUnseen(v: Volume, source: Name, target: Name, inode: nat) returns (o: Outcome)
    requires v.Valid() && source.Plain? && target.Plain? && source != target && inode in v.full
    requires !Grounded(v.names, source, target, inode)
    modifies v
    ensures o == Arrived && inode in v.full
  {
    v.script := BroughtLate(target, inode);
    o := v.MoveExpected(source, target, inode, true);
  }
}
