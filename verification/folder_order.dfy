/** When carrying folder identities depends on the order in which the map of verified moves is gone through, and when it
    does not. */
module FolderOrder {
  import opened Naming
  import opened Optional
  import opened FolderMatching

  /** Only old folders are inferred to have moved, and only to folders on disk. */
  predicate InferredOk(x: Inputs) {
    forall was :: was in x.inferred ==> was in x.previous && x.inferred[was] in x.current
  }

  /** No two paths on disk are the same directory. */
  predicate OneDirectoryEach(x: Inputs) {
    forall p, q :: p in x.current && q in x.current && p != q ==>
      x.current[p].device != x.current[q].device || x.current[p].inode != x.current[q].inode
  }

  // ---------------------------------------------------------------- one old folder

  /** This move sends the old folder to this path. */
  predicate Sends(x: Inputs, source: Path, was: Path, now: Path) {
    source in x.moves && Applies(x, was, source) && MovedPath(was, source, x.moves[source]) == now
  }

  predicate Unmoved(x: Inputs, was: Path) {
    forall source :: source in x.moves ==> !Applies(x, was, source)
  }

  predicate Stays(x: Inputs, was: Path, now: Path) {
    Unmoved(x, was) && was in x.inferred && x.inferred[was] == now
  }

  predicate Live(x: Inputs, was: Path) {
    was in x.previous && !TrustedDelete(x, was)
  }

  predicate At(forced: map<Path, Path>, was: Path, now: Path) {
    was in forced && forced[was] == now
  }

  lemma {:induction false} AfterUnmoved(x: Inputs, order: seq<Path>, was: Path, now: Path)
    requires forall s :: s in order ==> !Applies(x, was, s)
    ensures At(After(x, order), was, now) <==> was in x.inferred && x.inferred[was] == now
  {
    if order != [] {
      AfterUnmoved(x, order[..|order| - 1], was, now);
    }
  }

  /** A move that applies sends the folder where it says, if no later one applies. */
  lemma {:induction false} AfterLast(x: Inputs, order: seq<Path>, i: nat, was: Path, now: Path)
    requires i < |order| && order[i] in x.moves && Applies(x, was, order[i])
    requires forall j :: i < j < |order| ==> !Applies(x, was, order[j])
    ensures At(After(x, order), was, now) <==> Sends(x, order[i], was, now)
  {
    if i < |order| - 1 {
      AfterLast(x, order[..|order| - 1], i, was, now);
    }
  }

  /** The last move of the order decides, or the moves before it. */
  lemma AfterEnd(x: Inputs, order: seq<Path>, source: Path, was: Path, now: Path)
    requires source in x.moves
    ensures Applies(x, was, source) ==> (At(After(x, order + [source]), was, now) <==> Sends(x, source, was, now))
    ensures !Applies(x, was, source) ==> (At(After(x, order + [source]), was, now) <==> At(After(x, order), was, now))
  {
    assert (order + [source])[..|order|] == order;
  }

  /** One move sends two folders to two places. */
  lemma SendsApart(x: Inputs, source: Path, a: Path, b: Path, now: Path)
    requires Sends(x, source, a, now) && Sends(x, source, b, now)
    ensures a == b
  {
    var target := x.moves[source];
    assert a[|source|..] == now[|target|..] == b[|source|..];
    assert a == source + a[|source|..] && b == source + b[|source|..];
  }

  lemma ForcedToIs(x: Inputs, was: Path, now: Path)
    ensures ForcedTo(x, was, now) <==> Stays(x, was, now) || exists source :: Sends(x, source, was, now)
  {
    if source :| Sends(x, source, was, now) {
      assert source in x.moves && Applies(x, was, source);
    }
    if ForcedTo(x, was, now) && !Stays(x, was, now) {
      var source :| source in x.moves && Applies(x, was, source) && now == MovedPath(was, source, x.moves[source]);
      assert Sends(x, source, was, now);
    }
  }

  /** What an order gives is one of the possibilities. */
  lemma AfterPossible(x: Inputs, order: seq<Path>, was: Path, now: Path)
    requires Ordered(x.moves.Keys, order) && At(After(x, order), was, now)
    ensures ForcedTo(x, was, now)
  {
    AfterForced(x, order);
  }

  // ---------------------------------------------------------------- paths that are always claimed

  /** Whatever the order, one of these folders is sent to the path: every move that applies to one of them sends one of
      them there, and one to which no move applies is inferred to be there. */
  ghost predicate Held(x: Inputs, now: Path, group: set<Path>) {
    && group != {}
    && (forall was, source :: was in group && source in x.moves && Applies(x, was, source) ==>
          exists other :: other in group && Sends(x, source, other, now))
    && (forall was :: was in group && Unmoved(x, was) ==> Stays(x, was, now))
  }

  /** The last of the moves in the order that apply to a member of the group. */
  lemma {:induction false} LastMove(x: Inputs, order: seq<Path>, group: set<Path>, n: nat) returns (i: nat)
    requires n <= |order| && exists j, was :: 0 <= j < n && was in group && Applies(x, was, order[j])
    ensures i < n && (exists was :: was in group && Applies(x, was, order[i]))
    ensures forall j, was :: i < j < n && was in group ==> !Applies(x, was, order[j])
  {
    hide Applies;
    if was :| was in group && Applies(x, was, order[n - 1]) {
      i := n - 1;
    } else {
      i := LastMove(x, order, group, n - 1);
    }
  }

  lemma HeldClaims(x: Inputs, order: seq<Path>, now: Path, group: set<Path>) returns (was: Path)
    requires Ordered(x.moves.Keys, order) && Held(x, now, group)
    ensures was in group && At(After(x, order), was, now)
  {
    hide *;
    was := HeldMember(x, now, group);
    if Unmoved(x, was) {
      HeldStays(x, now, group, was);
      UnmovedStays(x, order, was, now);
    } else {
      MovedBy(x, order, group, was);
      var i := LastMove(x, order, group, |order|);
      was := HeldSends(x, order, now, group, i);
      SendsApplies(x, order[i], was, now);
      AfterLast(x, order, i, was, now);
    }
  }

  lemma HeldMember(x: Inputs, now: Path, group: set<Path>) returns (was: Path)
    requires Held(x, now, group)
    ensures was in group
  {
    hide Sends, Unmoved, Stays;
    was :| was in group;
  }

  lemma HeldStays(x: Inputs, now: Path, group: set<Path>, was: Path)
    requires Held(x, now, group) && was in group && Unmoved(x, was)
    ensures Stays(x, was, now)
  {
    hide Sends, Unmoved, Stays;
  }

  lemma UnmovedStays(x: Inputs, order: seq<Path>, was: Path, now: Path)
    requires Ordered(x.moves.Keys, order) && Stays(x, was, now)
    ensures At(After(x, order), was, now)
  {
    hide Applies, After;
    AfterUnmoved(x, order, was, now);
  }

  lemma MovedBy(x: Inputs, order: seq<Path>, group: set<Path>, was: Path)
    requires Ordered(x.moves.Keys, order) && was in group && !Unmoved(x, was)
    ensures exists j, p :: 0 <= j < |order| && p in group && Applies(x, p, order[j])
  {
    hide Applies;
    var s :| s in x.moves && Applies(x, was, s);
    var j :| 0 <= j < |order| && order[j] == s;
  }

  lemma HeldSends(x: Inputs, order: seq<Path>, now: Path, group: set<Path>, i: nat) returns (was: Path)
    requires Ordered(x.moves.Keys, order) && Held(x, now, group) && i < |order|
             && exists p :: p in group && Applies(x, p, order[i])
    ensures was in group && Sends(x, order[i], was, now)
  {
    hide Applies, Sends, Unmoved, Stays;
    var p :| p in group && Applies(x, p, order[i]);
    assert order[i] in x.moves;
    was :| was in group && Sends(x, order[i], was, now);
  }

  lemma SendsApplies(x: Inputs, source: Path, was: Path, now: Path)
    requires Sends(x, source, was, now)
    ensures source in x.moves && Applies(x, was, source)
  {
  }

  ghost predicate HoldsNone(x: Inputs, now: Path, folders: set<Path>) {
    forall group :: Held(x, now, group) ==> !(group <= folders)
  }

  lemma HoldsFewer(x: Inputs, now: Path, folders: set<Path>, fewer: set<Path>)
    requires HoldsNone(x, now, folders) && fewer <= folders
    ensures HoldsNone(x, now, fewer)
  {
    hide Held;
  }

  lemma {:induction false} SomeOrder(sources: set<Path>) returns (order: seq<Path>)
    ensures Ordered(sources, order)
    decreases |sources|
  {
    if sources == {} {
      order := [];
    } else {
      var s :| s in sources;
      order := SomeOrder(sources - {s});
      order := order + [s];
    }
  }

  lemma OrderedEnd(sources: set<Path>, order: seq<Path>, source: Path)
    requires Ordered(sources - {source}, order) && source in sources
    ensures Ordered(sources, order + [source])
  {
  }

  /** If no group among these folders is held at the path, some order of the moves sends none of them there. */
  lemma {:induction false} Escape(x: Inputs, now: Path, folders: set<Path>, sources: set<Path>)
    returns (order: seq<Path>)
    requires HoldsNone(x, now, folders) && sources <= x.moves.Keys
    requires forall was, s :: was in folders && s in x.moves && Applies(x, was, s) ==> s in sources
    ensures Ordered(sources, order) && forall was :: was in folders ==> !At(After(x, order), was, now)
    decreases |folders|
  {
    hide Applies, After, Sends, HoldsNone, At, Ordered;
    if folders == {} {
      order := SomeOrder(sources);
      return;
    }
    NotHeld(x, now, folders);
    if was, s :| was in folders && s in x.moves && Applies(x, was, s)
               && forall other :: other in folders ==> !Sends(x, s, other, now) {
      var rest := set p | p in folders && !Applies(x, p, s);
      assert was !in rest && rest <= folders;
      HoldsFewer(x, now, folders, rest);
      Smaller(rest, folders, was);
      var init := Escape(x, now, rest, sources - {s});
      OrderedEnd(sources, init, s);
      order := init + [s];
      forall p | p in folders
        ensures !At(After(x, order), p, now)
      {
        AfterEnd(x, init, s, p, now);
      }
    } else {
      var was :| was in folders && Unmoved(x, was) && !Stays(x, was, now);
      var rest := folders - {was};
      HoldsFewer(x, now, folders, rest);
      order := Escape(x, now, rest, sources);
      NeverThere(x, order, sources, was, now);
    }
  }

  lemma NotHeld(x: Inputs, now: Path, folders: set<Path>)
    requires HoldsNone(x, now, folders) && folders != {}
    ensures (exists was, s :: was in folders && s in x.moves && Applies(x, was, s)
              && forall other :: other in folders ==> !Sends(x, s, other, now))
      || (exists was :: was in folders && Unmoved(x, was) && !Stays(x, was, now))
  {
    hide Applies, Sends, Unmoved, Stays;
    assert !Held(x, now, folders);
  }

  lemma Smaller(a: set<Path>, b: set<Path>, p: Path)
    requires a <= b && p in b && p !in a
    ensures |a| < |b|
  {
    assert |a| <= |b - {p}| by { Within(a, b - {p}); }
  }

  lemma {:induction false} Within(a: set<Path>, b: set<Path>)
    requires a <= b
    ensures |a| <= |b|
  {
    if a != {} {
      var p :| p in a;
      Within(a - {p}, b - {p});
    }
  }

  lemma NeverThere(x: Inputs, order: seq<Path>, sources: set<Path>, was: Path, now: Path)
    requires Ordered(sources, order) && sources <= x.moves.Keys && Unmoved(x, was) && !Stays(x, was, now)
    ensures !At(After(x, order), was, now)
  {
    hide Applies, After;
    AfterUnmoved(x, order, was, now);
  }

  // ---------------------------------------------------------------- when the order cannot matter

  /** Some old folder that can be carried can be sent to the path. */
  predicate Claimable(x: Inputs, was: Path, now: Path) {
    Live(x, was) && ForcedTo(x, was, now)
  }

  /** However the folder comes to the path, another one that can be carried comes there too. */
  ghost predicate NeverAlone(x: Inputs, now: Path) {
    && (forall was, source :: Live(x, was) && Sends(x, source, was, now) ==> Joined(x, now, source))
    && (forall was :: Live(x, was) && Stays(x, was, now) ==> Accompanied(x, now, was))
  }

  /** A group the move does not apply to is held at the path. */
  ghost predicate Joined(x: Inputs, now: Path, source: Path) {
    exists group :: JoinedBy(x, now, source, group)
  }

  ghost predicate JoinedBy(x: Inputs, now: Path, source: Path, group: set<Path>) {
    Held(x, now, group) && forall p :: p in group ==> Live(x, p) && !Applies(x, p, source)
  }

  /** A group without the folder is held at the path. */
  ghost predicate Accompanied(x: Inputs, now: Path, was: Path) {
    exists group :: AccompaniedBy(x, now, was, group)
  }

  ghost predicate AccompaniedBy(x: Inputs, now: Path, was: Path, group: set<Path>) {
    Held(x, now, group) && forall p :: p in group ==> Live(x, p) && p != was
  }

  /** One folder goes there in every order, and no other ever can. */
  ghost predicate Surely(x: Inputs, was: Path, now: Path) {
    && Claimable(x, was, now) && (forall other :: ForcedTo(x, was, other) ==> other == now)
    && forall other :: Claimable(x, other, now) ==> other == was
  }

  /** The old folder can only be recognised by what is observed, and is observed here. */
  ghost predicate Watches(x: Inputs, was: Path, now: Path) {
    Live(x, was) && (forall other :: !ForcedTo(x, was, other)) && Observed(x, was, now)
  }

  ghost predicate SoleWatcher(x: Inputs, was: Path, now: Path) {
    Watches(x, was, now) && forall other :: Watches(x, other, now) ==> other == was
  }

  /** Who is carried to this path does not depend on the order: of the folders that can be sent there, one always comes,
      alone, or none ever comes alone; and where only folders confirmed as removed can be sent, they reserve the path
      always or never, or nobody is waiting for it. */
  ghost predicate Settled(x: Inputs, now: Path) {
    if exists was :: Claimable(x, was, now) then (exists was :: Surely(x, was, now)) || NeverAlone(x, now)
    else
      || now in x.remote || (forall was :: !ForcedTo(x, was, now)) || (exists group :: Held(x, now, group))
      || (forall was :: !SoleWatcher(x, was, now))
  }

  /** What one run of the match may return. */
  ghost predicate Matched(x: Inputs, order: seq<Path>, carried: map<Path, Path>) {
    Ordered(x.moves.Keys, order) && Carried(x, After(x, order), {}, carried)
  }

  // ---------------------------------------------------------------- edges under one order

  lemma ForcedEdge(x: Inputs, f: map<Path, Path>, was: Path, now: Path)
    requires At(f, was, now) && Live(x, was)
    ensures IsEdge(x, f, was, now) && forall other :: IsEdge(x, f, was, other) ==> other == now
  {
  }

  lemma EdgeIs(x: Inputs, f: map<Path, Path>, was: Path, now: Path)
    requires IsEdge(x, f, was, now)
    ensures Live(x, was) && (At(f, was, now)
                             || (was !in f && now !in f.Values && now !in x.remote && Observed(x, was, now)))
  {
  }

  lemma ForcedAlone(x: Inputs, f: map<Path, Path>, was: Path, now: Path)
    requires At(f, was, now) && Live(x, was) && forall other :: Live(x, other) && At(f, other, now) ==> other == was
    ensures OnlyEdge(x, f, was, now)
  {
    hide IsEdge;
    ForcedEdge(x, f, was, now);
    forall other | IsEdge(x, f, other, now)
      ensures other == was
    {
      EdgeIs(x, f, other, now);
    }
  }

  lemma ForcedTwice(x: Inputs, f: map<Path, Path>, a: Path, b: Path, was: Path, now: Path)
    requires At(f, a, now) && Live(x, a) && At(f, b, now) && Live(x, b) && a != b
    ensures !OnlyEdge(x, f, was, now)
  {
    hide IsEdge;
    ForcedEdge(x, f, a, now);
    ForcedEdge(x, f, b, now);
  }

  lemma OnlyIs(x: Inputs, f: map<Path, Path>, was: Path, now: Path)
    requires OnlyEdge(x, f, was, now)
    ensures Live(x, was) && (At(f, was, now)
                             || (was !in f && now !in f.Values && now !in x.remote && Observed(x, was, now)))
  {
    EdgeIs(x, f, was, now);
  }

  /** Nobody is sent to the path: the one folder that can only be observed there is carried. */
  lemma WatchedAlone(x: Inputs, f: map<Path, Path>, was: Path, now: Path)
    requires OneDirectoryEach(x) && Forced(x, f) && SoleWatcher(x, was, now) && now !in x.remote && now !in f.Values
    ensures OnlyEdge(x, f, was, now)
  {
    hide ForcedTo, TrustedDelete, OnlyEdge;
    assert was !in f;
    assert IsEdge(x, f, was, now);
    forall other | IsEdge(x, f, was, other)
      ensures other == now
    {
    }
    forall other | IsEdge(x, f, other, now)
      ensures other == was
    {
      EdgeIs(x, f, other, now);
      assert Watches(x, other, now);
    }
    OnlyFrom(x, f, was, now);
  }

  lemma OnlyFrom(x: Inputs, f: map<Path, Path>, was: Path, now: Path)
    requires IsEdge(x, f, was, now)
    requires forall other :: IsEdge(x, f, was, other) ==> other == now
    requires forall other :: IsEdge(x, f, other, now) ==> other == was
    ensures OnlyEdge(x, f, was, now)
  {
    hide IsEdge;
  }

  // ---------------------------------------------------------------- settled paths

  /** How a folder came to its path: nothing moved it, or some move sent it there. */
  lemma WayTo(x: Inputs, was: Path, now: Path) returns (source: Option<Path>)
    requires ForcedTo(x, was, now)
    ensures source == None ==> Stays(x, was, now)
    ensures source.Some? ==> Sends(x, source.value, was, now)
  {
    ForcedToIs(x, was, now);
    hide Applies, Sends, Stays;
    if Stays(x, was, now) {
      source := None;
    } else {
      var s :| Sends(x, s, was, now);
      source := Some(s);
    }
  }

  /** Wherever some order lets a folder come to such a path, another one is there in that order. */
  lemma NeverAloneJoined(x: Inputs, order: seq<Path>, was: Path, now: Path) returns (other: Path)
    requires NeverAlone(x, now) && Claimable(x, was, now) && Ordered(x.moves.Keys, order)
    ensures Live(x, other) && other != was && At(After(x, order), other, now)
  {
    var way := WayTo(x, was, now);
    hide Ordered, After, Held, Live, Stays, ForcedTo;
    var group: set<Path>;
    if way == None {
      assert Accompanied(x, now, was);
      group :| AccompaniedBy(x, now, was, group);
    } else {
      assert Joined(x, now, way.value);
      group :| JoinedBy(x, now, way.value, group);
    }
    other := HeldClaims(x, order, now, group);
  }

  lemma NobodyThere(x: Inputs, order: seq<Path>, was: Path, now: Path)
    requires NeverAlone(x, now) && (exists p :: Claimable(x, p, now)) && Ordered(x.moves.Keys, order)
    ensures !OnlyEdge(x, After(x, order), was, now)
  {
    hide Ordered, After, OnlyEdge, ForcedTo, NeverAlone, Live;
    if OnlyEdge(x, After(x, order), was, now) {
      OnlyIs(x, After(x, order), was, now);
      if At(After(x, order), was, now) {
        AfterPossible(x, order, was, now);
        var other := NeverAloneJoined(x, order, was, now);
        ForcedTwice(x, After(x, order), was, other, was, now);
      } else {
        var p :| Claimable(x, p, now);
        var other := NeverAloneJoined(x, order, p, now);
      }
    }
  }

  lemma SurelyThere(x: Inputs, order: seq<Path>, was: Path, now: Path)
    requires ForcedTo(x, was, now) && (forall other :: ForcedTo(x, was, other) ==> other == now)
             && Ordered(x.moves.Keys, order)
    ensures At(After(x, order), was, now)
  {
    AfterForced(x, order);
    hide ForcedTo, After, Ordered;
  }

  lemma SurelyCarried(x: Inputs, order: seq<Path>, was: Path, now: Path, other: Path)
    requires Surely(x, was, now) && Ordered(x.moves.Keys, order)
    ensures OnlyEdge(x, After(x, order), other, now) <==> other == was
  {
    var f := After(x, order);
    SurelyThere(x, order, was, now);
    hide Ordered, After, OnlyEdge, ForcedTo, Live;
    forall p | Live(x, p) && At(f, p, now)
      ensures p == was
    {
      AfterPossible(x, order, p, now);
      assert Claimable(x, p, now);
    }
    ForcedAlone(x, f, was, now);
    if OnlyEdge(x, f, other, now) {
      OnlyIs(x, f, other, now);
    }
  }

  /** Without a folder that can be sent there, only what is observed counts. */
  lemma WatcherOnly(x: Inputs, order: seq<Path>, was: Path, now: Path)
    requires (forall p :: !Claimable(x, p, now)) && Ordered(x.moves.Keys, order)
             && OnlyEdge(x, After(x, order), was, now)
    ensures SoleWatcher(x, was, now) && now !in After(x, order).Values && now !in x.remote
  {
    var f := After(x, order);
    AfterForced(x, order);
    OnlyIs(x, f, was, now);
    hide Ordered, After, ForcedTo, TrustedDelete;
    assert !Claimable(x, was, now);
    if At(f, was, now) {
      AfterPossible(x, order, was, now);
    }
    assert Watches(x, was, now);
    forall other | Watches(x, other, now)
      ensures other == was
    {
      assert other !in f;
      assert IsEdge(x, f, other, now);
    }
  }

  lemma SettledSame(x: Inputs, a: seq<Path>, b: seq<Path>, was: Path, now: Path)
    requires InferredOk(x) && OneDirectoryEach(x) && Settled(x, now)
    requires Ordered(x.moves.Keys, a) && Ordered(x.moves.Keys, b) && OnlyEdge(x, After(x, a), was, now)
    ensures OnlyEdge(x, After(x, b), was, now)
  {
    hide Ordered, After, OnlyEdge, ForcedTo, Claimable, NeverAlone, Surely, SoleWatcher, Held, OneDirectoryEach,
         InferredOk, At;
    if exists p :: Claimable(x, p, now) {
      if p :| Surely(x, p, now) {
        SurelyCarried(x, a, p, now, was);
        SurelyCarried(x, b, p, now, was);
      } else {
        NobodyThere(x, a, was, now);
      }
    } else {
      WatcherOnly(x, a, was, now);
      if group :| Held(x, now, group) {
        var p := HeldClaims(x, a, now, group);
        ThereIsValue(After(x, a), p, now);
      } else {
        NeverReserved(x, b, now);
        AfterForced(x, b);
        WatchedAlone(x, After(x, b), was, now);
      }
    }
  }

  lemma ThereIsValue(f: map<Path, Path>, was: Path, now: Path)
    requires At(f, was, now)
    ensures now in f.Values
  {
  }

  lemma NeverReserved(x: Inputs, order: seq<Path>, now: Path)
    requires (forall was :: !ForcedTo(x, was, now)) && Ordered(x.moves.Keys, order)
    ensures now !in After(x, order).Values
  {
    AfterForced(x, order);
    hide ForcedTo, After, Ordered;
  }

  // ---------------------------------------------------------------- paths that are not settled

  /** Every possibility is what some order gives. */
  lemma Choose(x: Inputs, was: Path, now: Path) returns (order: seq<Path>)
    requires ForcedTo(x, was, now)
    ensures Ordered(x.moves.Keys, order) && At(After(x, order), was, now)
  {
    var way := WayTo(x, was, now);
    hide After, ForcedTo, Applies, MovedPath, Ordered;
    if way == None {
      order := SomeOrder(x.moves.Keys);
      UnmovedStays(x, order, was, now);
    } else {
      SendsApplies(x, way.value, was, now);
      order := SomeOrder(x.moves.Keys - {way.value});
      AfterEnd(x, order, way.value, was, now);
      OrderedEnd(x.moves.Keys, order, way.value);
      order := order + [way.value];
    }
  }

  /** An order in which the folder comes to the path by this move, and no other that can be carried does. */
  lemma AloneByMove(x: Inputs, was: Path, now: Path, source: Path) returns (order: seq<Path>)
    requires Live(x, was) && Sends(x, source, was, now) && !Joined(x, now, source)
    ensures Ordered(x.moves.Keys, order) && OnlyEdge(x, After(x, order), was, now)
  {
    SendsApplies(x, source, was, now);
    var others := set p | p in x.previous && Live(x, p) && !Applies(x, p, source);
    hide After, Applies, MovedPath, Ordered, Live, Held, OnlyEdge, At, Sends;
    assert HoldsNone(x, now, others) by {
      forall group | Held(x, now, group)
        ensures !(group <= others)
      {
        assert !JoinedBy(x, now, source, group);
      }
    }
    var init := Escape(x, now, others, x.moves.Keys - {source});
    OrderedEnd(x.moves.Keys, init, source);
    order := init + [source];
    AfterEnd(x, init, source, was, now);
    forall p | Live(x, p) && At(After(x, order), p, now)
      ensures p == was
    {
      AfterEnd(x, init, source, p, now);
      if Applies(x, p, source) {
        SendsApart(x, source, p, was, now);
      } else {
        LiveOld(x, p);
      }
    }
    ForcedAlone(x, After(x, order), was, now);
  }

  lemma LiveOld(x: Inputs, was: Path)
    requires Live(x, was)
    ensures was in x.previous
  {
  }

  lemma AloneByStay(x: Inputs, was: Path, now: Path) returns (order: seq<Path>)
    requires Live(x, was) && Stays(x, was, now) && !Accompanied(x, now, was)
    ensures Ordered(x.moves.Keys, order) && OnlyEdge(x, After(x, order), was, now)
  {
    var others := set p | p in x.previous && Live(x, p) && p != was;
    hide After, Applies, MovedPath, Ordered, Live, Held, OnlyEdge, At, Stays;
    assert HoldsNone(x, now, others) by {
      forall group | Held(x, now, group)
        ensures !(group <= others)
      {
        assert !AccompaniedBy(x, now, was, group);
      }
    }
    order := Escape(x, now, others, x.moves.Keys);
    UnmovedStays(x, order, was, now);
    forall p | Live(x, p) && At(After(x, order), p, now)
      ensures p == was
    {
      LiveOld(x, p);
    }
    ForcedAlone(x, After(x, order), was, now);
  }

  /** A folder that is not sure of its path is not carried there in some order. */
  lemma NotSurely(x: Inputs, was: Path, now: Path) returns (order: seq<Path>)
    requires Claimable(x, was, now) && !Surely(x, was, now)
    ensures Ordered(x.moves.Keys, order) && !OnlyEdge(x, After(x, order), was, now)
  {
    hide After, Ordered, OnlyEdge, ForcedTo, Live;
    if other :| ForcedTo(x, was, other) && other != now {
      order := Choose(x, was, other);
      if OnlyEdge(x, After(x, order), was, now) {
        OnlyIs(x, After(x, order), was, now);
      }
    } else {
      var other :| Claimable(x, other, now) && other != was;
      order := Choose(x, other, now);
      SurelyThere(x, order, was, now);
      ForcedTwice(x, After(x, order), was, other, was, now);
    }
  }

  lemma UnsettledClaim(x: Inputs, now: Path) returns (was: Path, a: seq<Path>, b: seq<Path>)
    requires !NeverAlone(x, now) && forall p :: !Surely(x, p, now)
    ensures Ordered(x.moves.Keys, a) && Ordered(x.moves.Keys, b)
    ensures OnlyEdge(x, After(x, a), was, now) && !OnlyEdge(x, After(x, b), was, now)
  {
    hide After, Ordered, OnlyEdge, ForcedTo, Live, Surely, Sends, Stays, Joined, Accompanied;
    if p, s :| Live(x, p) && Sends(x, s, p, now) && !Joined(x, now, s) {
      was := p;
      a := AloneByMove(x, p, now, s);
      ForcedToIs(x, p, now);
    } else {
      var p :| Live(x, p) && Stays(x, p, now) && !Accompanied(x, now, p);
      was := p;
      a := AloneByStay(x, p, now);
      ForcedToIs(x, p, now);
    }
    b := NotSurely(x, was, now);
  }

  lemma UnsettledWatch(x: Inputs, now: Path, was: Path, gone: Path) returns (a: seq<Path>, b: seq<Path>)
    requires InferredOk(x) && OneDirectoryEach(x) && SoleWatcher(x, was, now) && now !in x.remote
             && ForcedTo(x, gone, now)
    requires forall group :: !Held(x, now, group)
    ensures Ordered(x.moves.Keys, a) && Ordered(x.moves.Keys, b)
    ensures OnlyEdge(x, After(x, a), was, now) && !OnlyEdge(x, After(x, b), was, now)
  {
    b := Choose(x, gone, now);
    hide OneDirectoryEach, Held, ForcedTo, After, Ordered, OnlyEdge, SoleWatcher, Applies;
    assert HoldsNone(x, now, x.previous.Keys);
    MovedIsOld(x);
    a := Escape(x, now, x.previous.Keys, x.moves.Keys);
    NotThere(x, a, now);
    AfterForced(x, a);
    WatchedAlone(x, After(x, a), was, now);
    AfterForced(x, b);
    ThereIsValue(After(x, b), gone, now);
    if OnlyEdge(x, After(x, b), was, now) {
      OnlyIs(x, After(x, b), was, now);
      WatchesUnforced(x, After(x, b), was, now);
    }
  }

  lemma WatchesUnforced(x: Inputs, f: map<Path, Path>, was: Path, now: Path)
    requires Forced(x, f) && SoleWatcher(x, was, now)
    ensures was !in f
  {
    hide ForcedTo;
  }

  lemma MovedIsOld(x: Inputs)
    ensures forall was, s :: Applies(x, was, s) ==> was in x.previous
  {
  }

  lemma NotThere(x: Inputs, order: seq<Path>, now: Path)
    requires InferredOk(x) && Ordered(x.moves.Keys, order)
             && forall was :: was in x.previous ==> !At(After(x, order), was, now)
    ensures now !in After(x, order).Values
  {
    var f := After(x, order);
    AfterForced(x, order);
    hide After, Ordered;
    forall was | was in f
      ensures f[was] != now
    {
      assert ForcedTo(x, was, f[was]);
      assert was in x.previous;
      assert !At(f, was, now);
    }
  }

  lemma Unsettled(x: Inputs, now: Path) returns (was: Path, a: seq<Path>, b: seq<Path>)
    requires InferredOk(x) && OneDirectoryEach(x) && !Settled(x, now)
    ensures Ordered(x.moves.Keys, a) && Ordered(x.moves.Keys, b)
    ensures OnlyEdge(x, After(x, a), was, now) && !OnlyEdge(x, After(x, b), was, now)
  {
    hide After, Ordered, OnlyEdge, ForcedTo, Claimable, Surely, NeverAlone, Held, SoleWatcher, InferredOk,
         OneDirectoryEach;
    if exists p :: Claimable(x, p, now) {
      was, a, b := UnsettledClaim(x, now);
    } else {
      was :| SoleWatcher(x, was, now);
      var gone :| ForcedTo(x, gone, now);
      a, b := UnsettledWatch(x, now, was, gone);
    }
  }

  /** The identities carried do not depend on the order of the verified moves exactly when every path on disk is
      settled. */
  lemma MatchSettledIff(x: Inputs)
    requires InferredOk(x) && OneDirectoryEach(x)
    ensures (forall now :: now in x.current ==> Settled(x, now)) <==>
            forall a, b, c, e :: Matched(x, a, c) && Matched(x, b, e) ==> c == e
  {
    hide *;
    if forall now :: now in x.current ==> Settled(x, now) {
      forall a, b, c, e | Matched(x, a, c) && Matched(x, b, e)
        ensures c == e
      {
        CarriedSame(x, a, b, c, e);
      }
    } else {
      var now :| now in x.current && !Settled(x, now);
      var was, a, b := Unsettled(x, now);
      CarriedApart(x, a, b, was, now);
      assert Matched(x, a, CarriedBy(x, After(x, a))) && Matched(x, b, CarriedBy(x, After(x, b)));
    }
  }

  lemma CarriedApart(x: Inputs, a: seq<Path>, b: seq<Path>, was: Path, now: Path)
    requires Ordered(x.moves.Keys, a) && Ordered(x.moves.Keys, b)
    requires OnlyEdge(x, After(x, a), was, now) && !OnlyEdge(x, After(x, b), was, now)
    ensures Matched(x, a, CarriedBy(x, After(x, a))) && Matched(x, b, CarriedBy(x, After(x, b)))
    ensures CarriedBy(x, After(x, a)) != CarriedBy(x, After(x, b))
  {
    CarriedByIs(x, After(x, a));
    CarriedByIs(x, After(x, b));
    hide Ordered, After, OnlyEdge, CarriedBy;
  }

  lemma CarriedSame(x: Inputs, a: seq<Path>, b: seq<Path>, c: map<Path, Path>, e: map<Path, Path>)
    requires InferredOk(x) && OneDirectoryEach(x) && Matched(x, a, c) && Matched(x, b, e)
    requires forall now :: now in x.current ==> Settled(x, now)
    ensures c == e
  {
    hide Ordered, After, OnlyEdge, Settled, OneDirectoryEach;
    forall was, now
      ensures OnlyEdge(x, After(x, a), was, now) <==> OnlyEdge(x, After(x, b), was, now)
    {
      if OnlyEdge(x, After(x, a), was, now) {
        EdgeOnDisk(x, a, was, now);
        SettledSame(x, a, b, was, now);
      }
      if OnlyEdge(x, After(x, b), was, now) {
        EdgeOnDisk(x, b, was, now);
        SettledSame(x, b, a, was, now);
      }
    }
    SameCarried(x, After(x, a), After(x, b), c, e);
  }

  lemma EdgeOnDisk(x: Inputs, order: seq<Path>, was: Path, now: Path)
    requires InferredOk(x) && Ordered(x.moves.Keys, order) && OnlyEdge(x, After(x, order), was, now)
    ensures now in x.current
  {
    OnlyIs(x, After(x, order), was, now);
    hide Ordered, After, OnlyEdge;
    if At(After(x, order), was, now) {
      AfterPossible(x, order, was, now);
    }
  }

  lemma SameCarried(x: Inputs, f: map<Path, Path>, g: map<Path, Path>, c: map<Path, Path>, e: map<Path, Path>)
    requires Carried(x, f, {}, c) && Carried(x, g, {}, e)
    requires forall was, now :: OnlyEdge(x, f, was, now) <==> OnlyEdge(x, g, was, now)
    ensures c == e
  {
    hide OnlyEdge;
    forall now
      ensures now in c <==> now in e
      ensures now in c ==> now in e && c[now] == e[now]
    {
      if now in c {
        assert OnlyEdge(x, f, c[now], now);
      }
      if now in e {
        assert OnlyEdge(x, g, e[now], now);
      }
    }
  }

  /** Verified moves that agree wherever more than one applies settle every path; so does a single one, which is all the
      callers ever pass. */
  lemma AgreedSettled(x: Inputs)
    requires InferredOk(x) && OneDirectoryEach(x) && (MovesAgree(x) || |x.moves| <= 1)
    ensures forall now :: now in x.current ==> Settled(x, now)
  {
    hide *;
    if |x.moves| <= 1 {
      OneMoveAgrees(x);
    }
    forall a, b, c, e | Matched(x, a, c) && Matched(x, b, e)
      ensures c == e
    {
      AgreedCarried(x, a, b, c, e);
    }
    MatchSettledIff(x);
  }

  lemma OneMoveAgrees(x: Inputs)
    requires |x.moves| <= 1
    ensures MovesAgree(x)
  {
    hide Applies, MovedPath;
    forall a, b | a in x.moves && b in x.moves
      ensures a == b
    {
      assert a in x.moves.Keys && b in x.moves.Keys;
      assert |x.moves.Keys| == |x.moves|;
      Alone(x.moves.Keys, a, b);
    }
  }

  lemma Alone(s: set<Path>, a: Path, b: Path)
    requires |s| <= 1 && a in s && b in s
    ensures a == b
  {
    if a != b {
      Within({a, b}, s);
    }
  }

  lemma AgreedCarried(x: Inputs, a: seq<Path>, b: seq<Path>, c: map<Path, Path>, e: map<Path, Path>)
    requires MovesAgree(x) && Matched(x, a, c) && Matched(x, b, e)
    ensures After(x, a) == After(x, b) && c == e
  {
    hide After, MovesAgree, Ordered, Forced, OnlyEdge, Carried;
    AfterForced(x, a);
    AfterForced(x, b);
    SameForced(x, After(x, a), After(x, b));
    SameCarried(x, After(x, a), After(x, b), c, e);
  }

  lemma SameForced(x: Inputs, f: map<Path, Path>, g: map<Path, Path>)
    requires MovesAgree(x) && Forced(x, f) && Forced(x, g)
    ensures f == g
  {
    ForcedOnce(x);
    hide MovesAgree, ForcedTo;
    assert forall was :: was in f <==> was in g;
  }

  /** A folder and a folder in it, each with a verified move of its own. */
  function Nested(): Inputs {
    Inputs(map[["a"] := Old(1, 1, 1, false, ""), ["a", "b"] := Old(2, 1, 2, false, "")],
           map[["c"] := Seen(1, 1, ""), ["c", "b"] := Seen(1, 2, ""), ["d"] := Seen(1, 3, "")],
           map[["a"] := ["c"], ["a", "b"] := ["d"]], map[], map[], map[])
  }

  /** The inner folder goes with its own move or with the outer one, by the order of the moves. */
  lemma OrderDecides() returns (a: seq<Path>, b: seq<Path>, c: map<Path, Path>, e: map<Path, Path>)
    ensures Verified(Nested()) && InferredOk(Nested()) && OneDirectoryEach(Nested())
    ensures Matched(Nested(), a, c) && Matched(Nested(), b, e) && c != e
  {
    a, b := [["a", "b"], ["a"]], [["a"], ["a", "b"]];
    c, e := map[["c"] := ["a"], ["c", "b"] := ["a", "b"]], map[["c"] := ["a"], ["d"] := ["a", "b"]];
    NestedValid();
    InnerFirst();
    OuterFirst();
    hide Nested, After, Carried;
    NestedCarried(map[["a"] := ["c"], ["a", "b"] := ["c", "b"]], ["c"], ["c", "b"]);
    NestedCarried(map[["a"] := ["c"], ["a", "b"] := ["d"]], ["c"], ["d"]);
    assert ["c", "b"] in c && ["c", "b"] !in e by { Apart(); }
  }

  lemma Apart()
    ensures ["a"] != ["a", "b"] && ["c"] != ["d"] && ["c"] != ["c", "b"] && ["c", "b"] != ["d"] && ["a"] != ["c"]
            && ["a", "b"] != ["d"]
    ensures ["a", "b"] != ["c", "b"]
  {
    assert |["a"]| == |["c"]| == |["d"]| == 1 && |["a", "b"]| == |["c", "b"]| == 2;
    assert ["a"][0] == ["a", "b"][0] == "a" && ["c"][0] == ["c", "b"][0] == "c" && ["d"][0] == "d";
  }

  lemma NestedValid()
    ensures Verified(Nested()) && InferredOk(Nested()) && OneDirectoryEach(Nested())
    ensures Ordered(Nested().moves.Keys, [["a", "b"], ["a"]]) && Ordered(Nested().moves.Keys, [["a"], ["a", "b"]])
  {
    Apart();
  }

  lemma InnerFirst()
    ensures After(Nested(), [["a", "b"], ["a"]]) == map[["a"] := ["c"], ["a", "b"] := ["c", "b"]]
  {
    Apart();
    hide After, Overwritten;
    OneMore(Nested(), [], ["a", "b"]);
    OneMore(Nested(), [["a", "b"]], ["a"]);
    NestedMoves(map[]);
    NestedMoves(map[["a", "b"] := ["d"]]);
    assert [] + [["a", "b"]] == [["a", "b"]] && [["a", "b"]] + [["a"]] == [["a", "b"], ["a"]];
  }

  lemma OuterFirst()
    ensures After(Nested(), [["a"], ["a", "b"]]) == map[["a"] := ["c"], ["a", "b"] := ["d"]]
  {
    Apart();
    hide After, Overwritten;
    OneMore(Nested(), [], ["a"]);
    OneMore(Nested(), [["a"]], ["a", "b"]);
    NestedMoves(map[]);
    NestedMoves(map[["a"] := ["c"], ["a", "b"] := ["c", "b"]]);
    assert [] + [["a"]] == [["a"]] && [["a"]] + [["a", "b"]] == [["a"], ["a", "b"]];
  }

  lemma NestedCarried(forced: map<Path, Path>, first: Path, second: Path)
    requires forced == map[["a"] := first, ["a", "b"] := second] && first != second
    ensures Carried(Nested(), forced, {}, map[first := ["a"], second := ["a", "b"]])
  {
    Apart();
    hide Carried, IsEdge;
    LoneEdges(Nested(), forced, map[first := ["a"], second := ["a", "b"]]);
  }

  lemma NestedMoves(f: map<Path, Path>)
    ensures Overwritten(Nested(), f, ["a"]) == f[["a"] := ["c"]][["a", "b"] := ["c", "b"]]
    ensures Overwritten(Nested(), f, ["a", "b"]) == f[["a", "b"] := ["d"]]
  {
    Apart();
    NestedApplies();
    hide Applies, MovedPath;
  }

  lemma NestedApplies()
    ensures forall was :: Applies(Nested(), was, ["a"]) <==> was == ["a"] || was == ["a", "b"]
    ensures forall was :: Applies(Nested(), was, ["a", "b"]) <==> was == ["a", "b"]
    ensures MovedPath(["a"], ["a"], ["c"]) == ["c"] && MovedPath(["a", "b"], ["a"], ["c"]) == ["c", "b"]
    ensures MovedPath(["a", "b"], ["a", "b"], ["d"]) == ["d"]
  {
    Apart();
    assert MovedPath(["a"], ["a"], ["c"]) == ["c"] && MovedPath(["a", "b"], ["a"], ["c"]) == ["c", "b"];
    assert MovedPath(["a", "b"], ["a", "b"], ["d"]) == ["d"];
  }

  lemma OneMore(x: Inputs, order: seq<Path>, source: Path)
    ensures After(x, []) == x.inferred && After(x, order + [source]) == Overwritten(x, After(x, order), source)
  {
    assert (order + [source])[..|order|] == order;
  }

  /** If every old folder is forced somewhere else, all are carried. */
  lemma LoneEdges(x: Inputs, forced: map<Path, Path>, carried: map<Path, Path>)
    requires x.previous.Keys == forced.Keys && x.deleted == map[]
    requires forall was :: was in forced ==> forced[was] in carried && carried[forced[was]] == was
    requires forall now :: now in carried ==> carried[now] in forced && forced[carried[now]] == now
    ensures Carried(x, forced, {}, carried)
  {
    forall p, q
      ensures IsEdge(x, forced, p, q) <==> p in forced && q == forced[p]
    {
    }
    hide IsEdge;
  }
}
