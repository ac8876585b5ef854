/** Carrying folder identities from the previous index to the folders seen on disk. */
module FolderMatching {
  import opened Ids
  import opened Naming

  datatype Old = Old(id: Uuid, device: nat, inode: nat, pending: bool, signature: string)

  datatype Seen = Seen(device: nat, inode: nat, signature: string)

  /** `remote` holds identities the server vouches for at a path, `deleted` the identities of folders whose removal it
      confirmed. */
  datatype Inputs = Inputs(
    previous: map<Path, Old>, current: map<Path, Seen>, moves: map<Path, Path>, remote: map<Path, Uuid>,
    deleted: map<Path, Uuid>,
    inferred: map<Path, Path>)

  type Edges = map<Path, set<Path>>

  /** What the server vouches for must fit both the previous index and the disk. */
  predicate Verified(x: Inputs) {
    && (forall source :: source in x.moves ==>
          x.moves[source] != source && source in x.previous && x.previous[source].id != NIL
              && x.moves[source] in x.current)
    && (forall target :: target in x.remote ==> target in x.current && ValidObjectId(x.remote[target]))
    && (forall source :: source in x.deleted ==>
          source in x.previous && x.previous[source].id == x.deleted[source] && x.deleted[source] != NIL)
  }

  // ---------------------------------------------------------------- verified moves

  function MovedPath(was: Path, source: Path, target: Path): Path
    requires source <= was
  {
    target + was[|source|..]
  }

  /** The verified move of `source` says where the old path is now, and something is there. */
  predicate Applies(x: Inputs, was: Path, source: Path) {
    was in x.previous && source in x.moves && source <= was && MovedPath(was, source, x.moves[source]) in x.current
  }

  /** The target a verified move forces on an old path, for some order of going through the moves. */
  predicate ForcedTo(x: Inputs, was: Path, target: Path) {
    if exists source :: source in x.moves && Applies(x, was, source)
    then exists source :: source in x.moves && Applies(x, was, source)
          && target == MovedPath(was, source, x.moves[source])
    else was in x.inferred && target == x.inferred[was]
  }

  /** The moves agree wherever more than one of them applies. */
  predicate MovesAgree(x: Inputs) {
    forall was, a, b :: was in x.previous && a in x.moves && b in x.moves && Applies(x, was, a)
                        && Applies(x, was, b) ==>
      MovedPath(was, a, x.moves[a]) == MovedPath(was, b, x.moves[b])
  }

  /** What the loop over the verified moves may leave: later moves overwrite earlier ones. */
  ghost predicate Forced(x: Inputs, forced: map<Path, Path>) {
    && (forall was :: was in forced ==> ForcedTo(x, was, forced[was]))
    && (forall was, target :: ForcedTo(x, was, target) ==> was in forced)
  }

  /** Some of the moves gone through so far, or the inferred map, gives the path this target. */
  predicate Reaches(x: Inputs, done: set<Path>, was: Path, target: Path) {
    if exists source :: source in done && Applies(x, was, source)
    then exists source :: source in done && Applies(x, was, source) && target == MovedPath(was, source, x.moves[source])
    else was in x.inferred && target == x.inferred[was]
  }

  /** The map after the moves in `done`. */
  ghost predicate ForcedBy(x: Inputs, done: set<Path>, forced: map<Path, Path>) {
    && (forall was :: was in forced ==> Reaches(x, done, was, forced[was]))
    && (forall was, target :: Reaches(x, done, was, target) ==> was in forced)
  }

  /** One verified move written over what the moves before it left. */
  function Overwritten(x: Inputs, forced: map<Path, Path>, source: Path): map<Path, Path> {
    forced + map was | was in x.previous && Applies(x, was, source) :: MovedPath(was, source, x.moves[source])
  }

  lemma OverwriteOne(x: Inputs, done: set<Path>, forced: map<Path, Path>, source: Path)
    requires ForcedBy(x, done, forced) && source in x.moves
    ensures ForcedBy(x, done + {source}, Overwritten(x, forced, source))
  {
    var after := Overwritten(x, forced, source);
    forall was | was in after
      ensures Reaches(x, done + {source}, was, after[was])
    {
      if Applies(x, was, source) {
        assert source in done + {source};
      } else {
        ReachesMore(x, done, source, was, after[was]);
      }
    }
    forall was, target | Reaches(x, done + {source}, was, target)
      ensures was in after
    {
      if !Applies(x, was, source) {
        ReachesMore(x, done, source, was, target);
      }
    }
  }

  lemma ReachesMore(x: Inputs, done: set<Path>, source: Path, was: Path, target: Path)
    requires !Applies(x, was, source)
    ensures Reaches(x, done, was, target) <==> Reaches(x, done + {source}, was, target)
  {
    assert forall s :: s in done + {source} && Applies(x, was, s) ==> s in done;
    assert forall s :: s in done ==> s in done + {source};
    hide Applies;
  }

  /** The sources in `order` are those in `sources`, each once. */
  ghost predicate Ordered(sources: set<Path>, order: seq<Path>) {
    (forall s :: s in order <==> s in sources) && forall i, j :: 0 <= i < j < |order| ==> order[i] != order[j]
  }

  function Elements(order: seq<Path>): set<Path> {
    set s | s in order
  }

  /** The forced targets after going through the verified moves in this order. */
  function After(x: Inputs, order: seq<Path>): map<Path, Path> {
    if order == [] then x.inferred else Overwritten(x, After(x, order[..|order| - 1]), order[|order| - 1])
  }

  lemma {:induction false} AfterBy(x: Inputs, order: seq<Path>)
    requires forall s :: s in order ==> s in x.moves
    ensures ForcedBy(x, Elements(order), After(x, order))
  {
    if order != [] {
      var init, last := order[..|order| - 1], order[|order| - 1];
      assert order == init + [last];
      AfterBy(x, init);
      OverwriteOne(x, Elements(init), After(x, init), last);
      assert Elements(order) == Elements(init) + {last};
    }
  }

  lemma AllForced(x: Inputs, forced: map<Path, Path>)
    requires ForcedBy(x, x.moves.Keys, forced)
    ensures Forced(x, forced)
  {
    hide Applies;
    forall was, target
      ensures ForcedTo(x, was, target) <==> Reaches(x, x.moves.Keys, was, target)
    {
    }
  }

  /** Whatever the order, what is forced is what one of the moves that apply says. */
  lemma AfterForced(x: Inputs, order: seq<Path>)
    requires Ordered(x.moves.Keys, order)
    ensures Forced(x, After(x, order))
  {
    AfterBy(x, order);
    assert Elements(order) == x.moves.Keys;
    AllForced(x, After(x, order));
  }

  /** Go through the verified moves, in no particular order, and through the previous folders below each. */
  method ForceMoves(x: Inputs) returns (forced: map<Path, Path>, ghost order: seq<Path>)
    ensures Ordered(x.moves.Keys, order) && forced == After(x, order)
  {
    forced, order := x.inferred, [];
    var todo: set<Path> := x.moves.Keys;
    while todo != {}
      invariant todo <= x.moves.Keys && Ordered(x.moves.Keys - todo, order) && forced == After(x, order)
      decreases |todo|
    {
      var source :| source in todo;
      todo := todo - {source};
      forced := ForceMove(x, forced, source);
      ghost var before := order;
      order := order + [source];
      assert order[..|order| - 1] == before;
    }
  }

  method ForceMove(x: Inputs, before: map<Path, Path>, source: Path) returns (forced: map<Path, Path>)
    requires source in x.moves
    ensures forced == Overwritten(x, before, source)
  {
    forced := before;
    var left := x.previous.Keys;
    while left != {}
      invariant left <= x.previous.Keys && Overwriting(x, before, forced, source, left)
      decreases |left|
    {
      hide Overwriting;
      var was :| was in left;
      ghost var earlier := forced;
      if source <= was && MovedPath(was, source, x.moves[source]) in x.current {
        forced := forced[was := MovedPath(was, source, x.moves[source])];
      }
      OverwriteNext(x, before, earlier, source, left, was);
      left := left - {was};
    }
    OverwriteEnd(x, before, forced, source);
  }

  /** Midway through one move: only the old paths outside `left` have been written. */
  ghost predicate Overwriting(x: Inputs, before: map<Path, Path>, forced: map<Path, Path>, source: Path,
                              left: set<Path>)
    requires source in x.moves
  {
    && forced.Keys == before.Keys + (set was | was in x.previous && was !in left && Applies(x, was, source))
    && forall was :: was in forced ==>
         forced[was] == if was in x.previous && was !in left && Applies(x, was, source) then
           MovedPath(was, source, x.moves[source]) else before[was]
  }

  lemma OverwriteNext(x: Inputs, before: map<Path, Path>, forced: map<Path, Path>, source: Path, left: set<Path>,
                      was: Path)
    requires source in x.moves && Overwriting(x, before, forced, source, left) && was in left && was in x.previous
    ensures Applies(x, was, source) ==>
              Overwriting(x, before, forced[was := MovedPath(was, source, x.moves[source])], source, left - {was})
    ensures !Applies(x, was, source) ==> Overwriting(x, before, forced, source, left - {was})
    ensures Applies(x, was, source) <==> source <= was && MovedPath(was, source, x.moves[source]) in x.current
  {
    assert Applies(x, was, source) <==> source <= was && MovedPath(was, source, x.moves[source]) in x.current;
    hide Applies, MovedPath;
  }

  lemma OverwriteEnd(x: Inputs, before: map<Path, Path>, forced: map<Path, Path>, source: Path)
    requires source in x.moves && Overwriting(x, before, forced, source, {})
    ensures forced == Overwritten(x, before, source)
  {
    assert forall was :: Applies(x, was, source) ==> source <= was;
    hide Applies, MovedPath;
  }

  lemma ForcedOnce(x: Inputs)
    requires MovesAgree(x)
    ensures forall was, a, b :: ForcedTo(x, was, a) && ForcedTo(x, was, b) ==> a == b
  {
    forall was, a, b | ForcedTo(x, was, a) && ForcedTo(x, was, b)
      ensures a == b
    {
      hide Applies;
    }
  }

  // ---------------------------------------------------------------- edges

  predicate TrustedDelete(x: Inputs, was: Path) {
    exists source :: source in x.deleted && source <= was
  }

  /** Current paths no other folder may claim. */
  function Reserved(x: Inputs, forced: map<Path, Path>): set<Path> {
    forced.Values + x.remote.Keys
  }

  predicate Observed(x: Inputs, was: Path, now: Path) {
    && was in x.previous && now in x.current
    && x.previous[was].device == x.current[now].device && x.previous[was].inode == x.current[now].inode
    && ((was == now && !x.previous[was].pending)
        || (x.previous[was].signature != "" && x.previous[was].signature == x.current[now].signature))
  }

  /** Old folder and current folder may be the same one. */
  predicate IsEdge(x: Inputs, forced: map<Path, Path>, was: Path, now: Path) {
    && was in x.previous && !TrustedDelete(x, was)
    && (if was in forced then now == forced[was] else now !in Reserved(x, forced) && Observed(x, was, now))
  }

  /** The edge is the only one at both of its ends. */
  ghost predicate OnlyEdge(x: Inputs, forced: map<Path, Path>, was: Path, now: Path) {
    && IsEdge(x, forced, was, now)
    && (forall other :: IsEdge(x, forced, was, other) ==> other == now)
    && (forall other :: IsEdge(x, forced, other, now) ==> other == was)
  }

  predicate HasEdge(edges: Edges, from: Path, to: Path) {
    from in edges && to in edges[from]
  }

  function AddEdge(edges: Edges, from: Path, to: Path): Edges {
    edges[from := (if from in edges then edges[from] else {}) + {to}]
  }

  lemma EdgeAdded(edges: Edges, from: Path, to: Path)
    ensures forall a, b :: HasEdge(AddEdge(edges, from, to), a, b) <==> HasEdge(edges, a, b) || (a == from && b == to)
    ensures (forall k :: k in edges ==> edges[k] != {}) ==>
              forall k :: k in AddEdge(edges, from, to) ==> AddEdge(edges, from, to)[k] != {}
  {
    var after := AddEdge(edges, from, to);
    assert to in after[from];
  }

  /** Both edge tables hold the edges of the old paths outside `todo`. */
  ghost predicate EdgesOf(x: Inputs, forced: map<Path, Path>, todo: set<Path>, forth: Edges, back: Edges) {
    && (forall was, now :: HasEdge(forth, was, now) <==> was !in todo && IsEdge(x, forced, was, now))
    && (forall was, now :: HasEdge(back, now, was) <==> was !in todo && IsEdge(x, forced, was, now))
    && (forall k :: k in forth ==> forth[k] != {})
  }

  /** The same, and of one old path those edges whose current path is outside `left`. */
  ghost predicate EdgesFrom(x: Inputs, forced: map<Path, Path>, todo: set<Path>, was: Path, left: set<Path>,
                            forth: Edges, back: Edges) {
    && (forall a, b :: HasEdge(forth, a, b) <==> (a !in todo || (a == was && b !in left)) && IsEdge(x, forced, a, b))
    && (forall a, b :: HasEdge(back, b, a) <==> (a !in todo || (a == was && b !in left)) && IsEdge(x, forced, a, b))
    && (forall k :: k in forth ==> forth[k] != {})
  }

  /** Fill both tables, one old folder after another. */
  method BuildEdges(x: Inputs, forced: map<Path, Path>) returns (forth: Edges, back: Edges)
    ensures EdgesOf(x, forced, {}, forth, back)
  {
    forth, back := map[], map[];
    var todo := x.previous.Keys;
    while todo != {}
      invariant todo <= x.previous.Keys && EdgesOf(x, forced, todo, forth, back)
      decreases |todo|
    {
      hide EdgesOf, EdgesFrom;
      var was :| was in todo;
      forth, back := EdgesOfOne(x, forced, todo, was, forth, back);
      todo := todo - {was};
    }
  }

  method EdgesOfOne(x: Inputs, forced: map<Path, Path>, ghost todo: set<Path>, was: Path, forth0: Edges, back0: Edges)
      returns (forth: Edges, back: Edges)
    requires EdgesOf(x, forced, todo, forth0, back0) && was in todo && was in x.previous
    ensures EdgesOf(x, forced, todo - {was}, forth, back)
  {
    forth, back := forth0, back0;
    hide *;
    if TrustedDelete(x, was) {
      NoEdges(x, forced, todo, was, forth, back);
      return;
    }
    if was in forced {
      EdgeAdded(forth, was, forced[was]);
      EdgeAdded(back, forced[was], was);
      forth, back := AddEdge(forth, was, forced[was]), AddEdge(back, forced[was], was);
      OneEdge(x, forced, todo, was, forth0, back0, forth, back);
      return;
    }
    var left := x.current.Keys;
    NoneYet(x, forced, todo, was, forth, back);
    while left != {}
      invariant left <= x.current.Keys && EdgesFrom(x, forced, todo, was, left, forth, back)
      decreases |left|
    {
      var now :| now in left;
      CandidateEdge(x, forced, was, now);
      ghost var f, b := forth, back;
      if now !in Reserved(x, forced) && Observed(x, was, now) {
        EdgeAdded(forth, was, now);
        EdgeAdded(back, now, was);
        forth, back := AddEdge(forth, was, now), AddEdge(back, now, was);
        EdgeTaken(x, forced, todo, was, left, f, b, forth, back, now);
      } else {
        EdgeSkipped(x, forced, todo, was, left, f, b, now);
      }
      left := left - {now};
    }
    EdgesDone(x, forced, todo, was, forth, back);
  }

  lemma NoEdges(x: Inputs, forced: map<Path, Path>, todo: set<Path>, was: Path, forth: Edges, back: Edges)
    requires EdgesOf(x, forced, todo, forth, back) && TrustedDelete(x, was) && was in todo
    ensures EdgesOf(x, forced, todo - {was}, forth, back)
  {
    assert forall now :: !IsEdge(x, forced, was, now);
    hide IsEdge, HasEdge;
  }

  lemma OneEdge(x: Inputs, forced: map<Path, Path>, todo: set<Path>, was: Path, forth0: Edges, back0: Edges,
                forth: Edges, back: Edges)
    requires EdgesOf(x, forced, todo, forth0, back0) && was in todo && was in forced && was in x.previous
             && !TrustedDelete(x, was)
    requires forall a, b :: HasEdge(forth, a, b) <==> HasEdge(forth0, a, b) || (a == was && b == forced[was])
    requires forall a, b :: HasEdge(back, a, b) <==> HasEdge(back0, a, b) || (a == forced[was] && b == was)
    requires (forall k :: k in forth0 ==> forth0[k] != {}) ==> forall k :: k in forth ==> forth[k] != {}
    ensures EdgesOf(x, forced, todo - {was}, forth, back)
  {
    assert forall now :: IsEdge(x, forced, was, now) <==> now == forced[was];
    hide IsEdge, HasEdge;
  }

  lemma CandidateEdge(x: Inputs, forced: map<Path, Path>, was: Path, now: Path)
    requires was !in forced && was in x.previous && !TrustedDelete(x, was)
    ensures IsEdge(x, forced, was, now) <==> now !in Reserved(x, forced) && Observed(x, was, now)
  {
  }

  lemma EdgeTaken(x: Inputs, forced: map<Path, Path>, todo: set<Path>, was: Path, left: set<Path>, forth0: Edges,
                  back0: Edges, forth: Edges, back: Edges, now: Path)
    requires EdgesFrom(x, forced, todo, was, left, forth0, back0) && now in left && IsEdge(x, forced, was, now)
    requires forall a, b :: HasEdge(forth, a, b) <==> HasEdge(forth0, a, b) || (a == was && b == now)
    requires forall a, b :: HasEdge(back, a, b) <==> HasEdge(back0, a, b) || (a == now && b == was)
    requires (forall k :: k in forth0 ==> forth0[k] != {}) ==> forall k :: k in forth ==> forth[k] != {}
    ensures EdgesFrom(x, forced, todo, was, left - {now}, forth, back)
  {
    hide IsEdge, HasEdge;
  }

  lemma EdgeSkipped(x: Inputs, forced: map<Path, Path>, todo: set<Path>, was: Path, left: set<Path>, forth: Edges,
                    back: Edges, now: Path)
    requires EdgesFrom(x, forced, todo, was, left, forth, back) && now in left && !IsEdge(x, forced, was, now)
    ensures EdgesFrom(x, forced, todo, was, left - {now}, forth, back)
  {
    hide IsEdge, HasEdge;
  }

  lemma EdgesDone(x: Inputs, forced: map<Path, Path>, todo: set<Path>, was: Path, forth: Edges, back: Edges)
    requires EdgesFrom(x, forced, todo, was, {}, forth, back)
    ensures EdgesOf(x, forced, todo - {was}, forth, back)
  {
    hide IsEdge, HasEdge;
  }

  lemma NoneYet(x: Inputs, forced: map<Path, Path>, todo: set<Path>, was: Path, forth: Edges, back: Edges)
    requires EdgesOf(x, forced, todo, forth, back) && was !in forced && was in todo
    ensures EdgesFrom(x, forced, todo, was, x.current.Keys, forth, back)
  {
    hide HasEdge;
    assert forall b :: IsEdge(x, forced, was, b) ==> b in x.current;
    hide IsEdge;
  }

  // ---------------------------------------------------------------- assignment

  /** Which old folder each current folder continues. */
  ghost predicate Carried(x: Inputs, forced: map<Path, Path>, todo: set<Path>, carried: map<Path, Path>) {
    forall was, now :: (now in carried && carried[now] == was) <==> (was !in todo && OnlyEdge(x, forced, was, now))
  }

  lemma OnlyByTables(x: Inputs, forced: map<Path, Path>, forth: Edges, back: Edges, was: Path, now: Path)
    requires EdgesOf(x, forced, {}, forth, back) && HasEdge(forth, was, now)
    ensures HasEdge(back, now, was)
    ensures OnlyEdge(x, forced, was, now) <==> forth[was] == {now} && back[now] == {was}
  {
    hide IsEdge;
    if OnlyEdge(x, forced, was, now) {
      assert forall other :: other in forth[was] <==> HasEdge(forth, was, other);
      assert forall other :: other in back[now] <==> HasEdge(back, now, other);
    }
    if forth[was] == {now} && back[now] == {was} {
      assert forall other :: IsEdge(x, forced, was, other) ==> HasEdge(forth, was, other);
      assert forall other :: IsEdge(x, forced, other, now) ==> HasEdge(back, now, other);
    }
  }

  /** Carry an identity over every edge that is alone at both ends. */
  method Assign(x: Inputs, forced: map<Path, Path>, forth: Edges, back: Edges) returns (carried: map<Path, Path>)
    requires EdgesOf(x, forced, {}, forth, back)
    ensures Carried(x, forced, {}, carried)
  {
    carried := map[];
    var todo := forth.Keys;
    NothingCarried(x, forced, forth, back);
    while todo != {}
      invariant todo <= forth.Keys && Carried(x, forced, todo, carried)
      decreases |todo|
    {
      hide Carried, OnlyEdge, EdgesOf, IsEdge;
      var was :| was in todo;
      assert forth[was] != {} by { NonEmptyEdges(x, forced, forth, back, was); }
      var now :| now in forth[was];
      OnlyByTables(x, forced, forth, back, was, now);
      if |forth[was]| == 1 && |back[now]| == 1 {
        Single(forth[was], now);
        Single(back[now], was);
        CarryOne(x, forced, todo, carried, was, now);
        carried := carried[now := was];
      } else {
        CarryNone(x, forced, todo, carried, forth, back, was, now);
      }
      todo := todo - {was};
    }
  }

  lemma NonEmptyEdges(x: Inputs, forced: map<Path, Path>, forth: Edges, back: Edges, was: Path)
    requires EdgesOf(x, forced, {}, forth, back) && was in forth
    ensures forth[was] != {}
  {
  }

  lemma Single(s: set<Path>, p: Path)
    requires p in s && |s| == 1
    ensures s == {p}
  {
    assert |s - {p}| == 0;
  }

  lemma NothingCarried(x: Inputs, forced: map<Path, Path>, forth: Edges, back: Edges)
    requires EdgesOf(x, forced, {}, forth, back)
    ensures Carried(x, forced, forth.Keys, map[])
  {
    forall was, now | OnlyEdge(x, forced, was, now)
      ensures was in forth
    {
      assert HasEdge(forth, was, now);
    }
  }

  lemma CarryOne(x: Inputs, forced: map<Path, Path>, todo: set<Path>, carried: map<Path, Path>, was: Path, now: Path)
    requires Carried(x, forced, todo, carried) && OnlyEdge(x, forced, was, now) && was in todo
    ensures Carried(x, forced, todo - {was}, carried[now := was])
  {
    hide IsEdge;
    forall other | OnlyEdge(x, forced, other, now)
      ensures other == was
    {
    }
    forall other | OnlyEdge(x, forced, was, other)
      ensures other == now
    {
    }
    hide OnlyEdge;
  }

  lemma CarryNone(x: Inputs, forced: map<Path, Path>, todo: set<Path>, carried: map<Path, Path>, forth: Edges,
                  back: Edges, was: Path, now: Path)
    requires Carried(x, forced, todo, carried) && EdgesOf(x, forced, {}, forth, back) && was in todo
             && HasEdge(forth, was, now)
    requires HasEdge(back, now, was) && (|forth[was]| != 1 || |back[now]| != 1)
    ensures Carried(x, forced, todo - {was}, carried)
  {
    assert now in forth[was];
    forall other
      ensures !OnlyEdge(x, forced, was, other)
    {
      if OnlyEdge(x, forced, was, other) {
        assert HasEdge(forth, was, other);
        OnlyByTables(x, forced, forth, back, was, other);
        assert false;
      }
    }
    hide OnlyEdge;
  }

  /** The whole match: refused if what is verified does not fit; an identity is carried exactly over the edges that are
      alone at both ends. */
  method MatchFolders(x: Inputs) returns (ok: bool, carried: map<Path, Path>, ghost order: seq<Path>)
    ensures ok <==> Verified(x)
    ensures ok ==> Ordered(x.moves.Keys, order) && Carried(x, After(x, order), {}, carried)
  {
    if !Verified(x) {
      return false, map[], [];
    }
    var forced: map<Path, Path>;
    forced, order := ForceMoves(x);
    var forth, back := BuildEdges(x, forced);
    carried := Assign(x, forced, forth, back);
    ok := true;
  }

  /** No identity is carried twice. */
  lemma CarriedOnce(x: Inputs, forced: map<Path, Path>, carried: map<Path, Path>, a: Path, b: Path)
    requires Carried(x, forced, {}, carried) && a in carried && b in carried
    requires forall p, q :: p in x.previous && q in x.previous && x.previous[p].id == x.previous[q].id ==> p == q
    requires carried[a] in x.previous && carried[b] in x.previous
             && x.previous[carried[a]].id == x.previous[carried[b]].id
    ensures a == b
  {
    hide IsEdge;
    assert OnlyEdge(x, forced, carried[a], a) && OnlyEdge(x, forced, carried[b], b);
  }

  ghost function CarriedBy(x: Inputs, forced: map<Path, Path>): map<Path, Path> {
    map now | now in x.current.Keys + forced.Values
        && (exists was :: OnlyEdge(x, forced, was, now)) :: OldOf(x, forced, now)
  }

  ghost function OldOf(x: Inputs, forced: map<Path, Path>, now: Path): Path
    requires exists was :: OnlyEdge(x, forced, was, now)
  {
    var was :| OnlyEdge(x, forced, was, now); was
  }

  lemma CarriedByIs(x: Inputs, forced: map<Path, Path>)
    ensures Carried(x, forced, {}, CarriedBy(x, forced))
  {
    forall was, now | OnlyEdge(x, forced, was, now)
      ensures now in x.current.Keys + forced.Values && forall other :: OnlyEdge(x, forced, other, now) ==> other == was
    {
      assert IsEdge(x, forced, was, now);
      assert forall other :: OnlyEdge(x, forced, other, now) ==> IsEdge(x, forced, other, now);
    }
    hide OnlyEdge;
  }
}
