/** Guessing from the watcher's hints which folders were moved on disk. */
module FolderInference {
  import opened Naming
  import opened Sorting
  import opened FolderMatching
  import opened FolderOrder

  type Olds = map<Path, Old>

  type Seens = map<Path, Seen>

  predicate Fresh(olds: Olds, seens: Seens, p: Path) {
    p in seens && p !in olds
  }

  /** A folder that was not there before, in one that was. */
  predicate FreshRoot(olds: Olds, seens: Seens, p: Path) {
    Fresh(olds, seens, p) && forall k :: 0 < k < |p| ==> !Fresh(olds, seens, p[..k])
  }

  predicate Resembles(olds: Olds, seens: Seens, root: Path, p: Path)
    requires root in olds && p in seens
  {
    olds[root].signature == "" || olds[root].signature == seens[p].signature
  }

  /** The new roots not yet taken that the old folder may have become. */
  function Candidates(olds: Olds, seens: Seens, used: set<Path>, root: Path): set<Path>
    requires root in olds
  {
    set p | p in seens && FreshRoot(olds, seens, p) && p !in used && Resembles(olds, seens, root, p)
  }

  /** What is inferred so far, and the new roots that are taken. */
  datatype Guess = Guess(forced: map<Path, Path>, used: set<Path>)

  predicate Moves(olds: Olds, seens: Seens, root: Path, top: Path, was: Path) {
    was in olds && root <= was && MovedPath(was, root, top) in seens
  }

  /** Everything at or below the old root is where the new root says, if something is there. */
  function Rooted(olds: Olds, seens: Seens, forced: map<Path, Path>, root: Path, top: Path): map<Path, Path> {
    forced + Following(olds, seens, root, top, olds.Keys)
  }

  function Following(olds: Olds, seens: Seens, root: Path, top: Path, done: set<Path>): map<Path, Path> {
    map was | was in done && Moves(olds, seens, root, top, was) :: MovedPath(was, root, top)
  }

  lemma FollowOne(olds: Olds, seens: Seens, root: Path, top: Path, done: set<Path>, was: Path, before: map<Path, Path>)
    requires was in olds
    ensures Moves(olds, seens, root, top, was) <==> root <= was && MovedPath(was, root, top) in seens
    ensures before + Following(olds, seens, root, top, done + {was}) ==
            if Moves(olds, seens, root, top, was) then
              (before + Following(olds, seens, root, top, done))[was := MovedPath(was, root, top)]
            else before + Following(olds, seens, root, top, done)
  {
    assert Moves(olds, seens, root, top, was) <==> root <= was && MovedPath(was, root, top) in seens;
    assert forall p :: Moves(olds, seens, root, top, p) ==> root <= p;
    hide Moves, MovedPath;
  }

  /** One hint: it counts only if exactly one new root is left for it. */
  ghost predicate Hinted(olds: Olds, seens: Seens, g: Guess, root: Path, h: Guess) {
    if root in olds && exists top :: Candidates(olds, seens, g.used, root) == {top}
    then exists top :: Candidates(olds, seens, g.used, root) == {top}
          && h == Guess(Rooted(olds, seens, g.forced, root, top), g.used + {top})
    else h == g
  }

  /** What a guess always meets: taken roots are new roots, every inferred folder is below one of them, and no two are
      inferred to be the same. */
  ghost predicate GuessOk(olds: Olds, seens: Seens, g: Guess) {
    && (forall p :: p in g.used ==> FreshRoot(olds, seens, p))
    && (forall was :: was in g.forced ==> was in olds && g.forced[was] in seens && Below(g.used, g.forced[was]))
    && (forall a, b :: a in g.forced && b in g.forced && g.forced[a] == g.forced[b] ==> a == b)
  }

  ghost predicate Below(used: set<Path>, p: Path) {
    exists top :: top in used && top <= p
  }

  lemma RootsApart(olds: Olds, seens: Seens, a: Path, b: Path, p: Path)
    requires FreshRoot(olds, seens, a) && FreshRoot(olds, seens, b) && a <= p && b <= p && a != [] && b != []
    ensures a == b
  {
    assert a == p[..|a|] && b == p[..|b|];
    if |a| <= |b| {
      assert b[..|a|] == a;
    }
    if |b| <= |a| {
      assert a[..|b|] == b;
    }
  }

  lemma HintOk(olds: Olds, seens: Seens, g: Guess, root: Path, top: Path)
    requires [] !in seens && GuessOk(olds, seens, g) && root in olds && top in Candidates(olds, seens, g.used, root)
    ensures GuessOk(olds, seens, Guess(Rooted(olds, seens, g.forced, root, top), g.used + {top}))
  {
    var h := Guess(Rooted(olds, seens, g.forced, root, top), g.used + {top});
    hide FreshRoot, Resembles;
    forall was | was in h.forced
      ensures was in olds && h.forced[was] in seens && Below(h.used, h.forced[was])
    {
      RootedAt(olds, seens, g.forced, root, top, was);
      if Moves(olds, seens, root, top, was) {
        assert top in h.used;
      } else {
        var f :| f in g.used && f <= g.forced[was];
        assert f in h.used;
      }
    }
    forall a, b | a in h.forced && b in h.forced && h.forced[a] == h.forced[b]
      ensures a == b
    {
      RootedAt(olds, seens, g.forced, root, top, a);
      RootedAt(olds, seens, g.forced, root, top, b);
      if Moves(olds, seens, root, top, a) && !Moves(olds, seens, root, top, b) {
        NotBelow(olds, seens, g, top, b);
      } else if !Moves(olds, seens, root, top, a) && Moves(olds, seens, root, top, b) {
        NotBelow(olds, seens, g, top, a);
      } else if Moves(olds, seens, root, top, a) && Moves(olds, seens, root, top, b) {
        MovedApart(root, top, a, b);
      }
    }
  }

  lemma RootedAt(olds: Olds, seens: Seens, forced: map<Path, Path>, root: Path, top: Path, was: Path)
    requires was in Rooted(olds, seens, forced, root, top)
    ensures if Moves(olds, seens, root, top, was)
      then Rooted(olds, seens, forced, root, top)[was] == MovedPath(was, root, top) && top <= MovedPath(was, root, top)
      else was in forced && Rooted(olds, seens, forced, root, top)[was] == forced[was]
  {
  }

  lemma NotBelow(olds: Olds, seens: Seens, g: Guess, top: Path, was: Path)
    requires [] !in seens && GuessOk(olds, seens, g) && was in g.forced && FreshRoot(olds, seens, top) && top !in g.used
    ensures !(top <= g.forced[was])
  {
    var f :| f in g.used && f <= g.forced[was];
    if top <= g.forced[was] {
      RootsApart(olds, seens, f, top, g.forced[was]);
    }
  }

  lemma MovedApart(root: Path, top: Path, a: Path, b: Path)
    requires root <= a && root <= b && MovedPath(a, root, top) == MovedPath(b, root, top)
    ensures a == b
  {
    assert a[|root|..] == MovedPath(a, root, top)[|top|..] == b[|root|..];
    assert a == root + a[|root|..] && b == root + b[|root|..];
  }

  // ---------------------------------------------------------------- the loops

  /** The folders that were not there before and are in none that was not. */
  method NewRoots(olds: Olds, seens: Seens) returns (roots: set<Path>)
    requires [] !in seens
    ensures roots == set p | p in seens && FreshRoot(olds, seens, p)
  {
    roots := {};
    var todo := seens.Keys;
    while todo != {}
      invariant todo <= seens.Keys && roots == set p | p in seens && p !in todo && FreshRoot(olds, seens, p)
      decreases |todo|
    {
      var candidate :| candidate in todo;
      todo := todo - {candidate};
      var root := candidate !in olds;
      var k := |candidate| - 1;
      while root && k > 0
        invariant 0 <= k < |candidate|
        invariant root ==> Fresh(olds, seens, candidate)
                           && forall j :: k < j < |candidate| ==> !Fresh(olds, seens, candidate[..j])
        invariant !root ==> !FreshRoot(olds, seens, candidate)
      {
        root := !(candidate[..k] in seens && candidate[..k] !in olds);
        k := k - 1;
      }
      if root {
        roots := roots + {candidate};
      }
    }
  }

  /** One hint after another, shallow ones first: a hint with exactly one new root left for it takes that root, and what
      is below follows. */
  method InferMoves(olds: Olds, seens: Seens, hints: seq<Path>)
    returns (forced: map<Path, Path>, ghost steps: seq<Guess>)
    requires [] !in seens
    ensures |steps| == |Ordering(hints)| + 1 && steps[0] == Guess(map[], {}) && forced == steps[|steps| - 1].forced
    ensures forall i :: 0 <= i < |Ordering(hints)| ==> Hinted(olds, seens, steps[i], Ordering(hints)[i], steps[i + 1])
    ensures forall was :: was in forced ==> was in olds && forced[was] in seens
    ensures forall a, b :: a in forced && b in forced && forced[a] == forced[b] ==> a == b
  {
    var roots := NewRoots(olds, seens);
    var ordered := Ordering(hints);
    var g := Guess(map[], {});
    steps := [g];
    hide Ordering;
    for i := 0 to |ordered|
      invariant |steps| == i + 1 && steps[0] == Guess(map[], {}) && steps[i] == g && GuessOk(olds, seens, g)
      invariant forall j :: 0 <= j < i ==> Hinted(olds, seens, steps[j], ordered[j], steps[j + 1])
    {
      hide Hinted, GuessOk, Candidates;
      g := TakeHint(olds, seens, roots, g, ordered[i]);
      steps := steps + [g];
    }
    forced := g.forced;
  }

  /** The hints, shallow ones first. */
  function Ordering(hints: seq<Path>): seq<Path> {
    Sort((a: Path, b: Path) => |a| < |b|, hints)
  }

  method TakeHint(olds: Olds, seens: Seens, roots: set<Path>, g: Guess, root: Path) returns (h: Guess)
    requires [] !in seens && roots == (set p | p in seens && FreshRoot(olds, seens, p)) && GuessOk(olds, seens, g)
    ensures Hinted(olds, seens, g, root, h) && GuessOk(olds, seens, h)
  {
    h := g;
    hide GuessOk, FreshRoot, Resembles;
    if root in olds {
      var candidates: set<Path> := {};
      var todo := roots;
      while todo != {}
        invariant todo <= roots
        invariant candidates == set p | p in roots && p !in todo && p !in g.used && Resembles(olds, seens, root, p)
        decreases |todo|
      {
        var p :| p in todo;
        todo := todo - {p};
        if p !in g.used && Resembles(olds, seens, root, p) {
          candidates := candidates + {p};
        }
      }
      assert candidates == Candidates(olds, seens, g.used, root);
      if |candidates| == 1 {
        var top :| top in candidates;
        Single(candidates, top);
        HintOk(olds, seens, g, root, top);
        var forced := Follow(olds, seens, g.forced, root, top);
        h := Guess(forced, g.used + {top});
      }
    }
  }

  method Follow(olds: Olds, seens: Seens, before: map<Path, Path>, root: Path, top: Path)
    returns (forced: map<Path, Path>)
    ensures forced == Rooted(olds, seens, before, root, top)
  {
    hide *;
    forced := before;
    var left: set<Path> := olds.Keys;
    ghost var done: set<Path> := {};
    FollowNone(olds, seens, root, top, before);
    while left != {}
      invariant done + left == olds.Keys && forced == before + Following(olds, seens, root, top, done)
      decreases |left|
    {
      var was :| was in left;
      FollowOne(olds, seens, root, top, done, was, before);
      if root <= was && MovedPath(was, root, top) in seens {
        forced := forced[was := MovedPath(was, root, top)];
      }
      left, done := left - {was}, done + {was};
    }
    FollowAll(olds, seens, root, top, before);
  }

  lemma FollowNone(olds: Olds, seens: Seens, root: Path, top: Path, before: map<Path, Path>)
    ensures before == before + Following(olds, seens, root, top, {})
  {
  }

  lemma FollowAll(olds: Olds, seens: Seens, root: Path, top: Path, before: map<Path, Path>)
    ensures Rooted(olds, seens, before, root, top) == before + Following(olds, seens, root, top, olds.Keys)
  {
  }

  /** The whole of it: infer, force, and match. */
  method ReconcileFolders(x: Inputs, hints: seq<Path>)
    returns (ok: bool, carried: map<Path, Path>, ghost y: Inputs, ghost order: seq<Path>, ghost steps: seq<Guess>)
    requires [] !in x.current
    ensures |steps| == |Ordering(hints)| + 1 && steps[0] == Guess(map[], {})
            && y.inferred == steps[|steps| - 1].forced
    ensures forall i :: 0 <= i < |Ordering(hints)| ==>
              Hinted(x.previous, x.current, steps[i], Ordering(hints)[i], steps[i + 1])
    ensures y == x.(inferred := y.inferred) && InferredOk(y) && (ok <==> Verified(x))
    ensures forall a, b :: a in y.inferred && b in y.inferred && y.inferred[a] == y.inferred[b] ==> a == b
    ensures ok ==> Matched(y, order, carried)
  {
    hide Verified, Matched, Hinted, Ordering;
    var forced;
    forced, steps := InferMoves(x.previous, x.current, hints);
    var z := x.(inferred := forced);
    y := z;
    VerifiedSame(x, z);
    ok, carried, order := MatchFolders(z);
    MatchedIs(z, order, carried);
  }

  lemma VerifiedSame(x: Inputs, y: Inputs)
    requires y == x.(inferred := y.inferred)
    ensures Verified(x) <==> Verified(y)
  {
  }

  lemma MatchedIs(x: Inputs, order: seq<Path>, carried: map<Path, Path>)
    ensures Matched(x, order, carried) <==> Ordered(x.moves.Keys, order) && Carried(x, After(x, order), {}, carried)
  {
  }
}
