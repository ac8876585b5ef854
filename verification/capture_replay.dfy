/** What a captured batch does to the objects the queue was projecting. */
module CaptureReplay {
  import opened Ids
  import opened Naming
  import opened Optional
  import opened Outbox
  import opened OutboxExtend
  import opened Capture
  import opened CaptureOps

  /** Where an object is and what it holds. */
  datatype Entry = Entry(parent: Uuid, name: string, hash: Hash)

  type View = map<Uuid, Entry>

  function At(v: View, id: Uuid): Option<Entry> {
    if id in v then Some(v[id]) else None
  }

  function ParentId(m: Mutation): Uuid {
    if m.parent == None then NIL else m.parent.value
  }

  /** A create makes a new object below an existing parent, a move puts an existing one below an existing parent. */
  function Apply(v: View, m: Mutation): Option<View> {
    match m.kind
    case Create =>
      if m.obj in v || (m.parent.Some? && m.parent.value !in v) then None
      else Some(v[m.obj := Entry(ParentId(m), m.name, m.blob)])
    case Move =>
      if m.obj !in v || (m.parent.Some? && m.parent.value !in v) then None
      else Some(v[m.obj := Entry(ParentId(m), m.name, v[m.obj].hash)])
    case Update => if m.obj !in v then None else Some(v[m.obj := v[m.obj].(hash := m.blob)])
    case Delete => if m.obj !in v then None else Some(v - {m.obj})
  }

  function Play(v: View, ms: seq<Mutation>): Option<View> {
    if ms == [] then Some(v)
    else
      var before := Play(v, ms[..|ms| - 1]);
      if before == None then None else Apply(before.value, ms[|ms| - 1])
  }

  predicate Matches(x: Entry, o: Observed) {
    x.parent == o.parent && x.name == NameOf(o) && (o.otype == Note ==> x.hash == o.hash)
  }

  /** The view the previous snapshot and the queue promise: only durable objects, and the tracked ones as they were. */
  ghost predicate ProjectedView(e: Scan, v: View) {
    && (forall id :: id in v ==> Durable(e.s, id))
    && (forall id :: id in e.earlier && Durable(e.s, id) ==> id in v && Matches(v[id], e.earlier[id]))
  }

  /** What can be replayed for one followed object: it must still exist, and so must the folder it moved to. */
  predicate LegalChange(e: Scan, v: View, o: Observed) {
    && (Moved(e, o) ==> o.id in v && (o.parent != NIL ==> o.parent in v))
    && (Changed(e, o) && o.id !in e.oversize ==> o.id in v)
  }

  /** The folder a new object lies in still exists, or is new itself. */
  predicate LegalCreate(e: Scan, v: View, o: Observed) {
    o.parent != NIL && Durable(e.s, o.parent) ==> o.parent in v
  }

  function Hashed(e: Scan, o: Observed, hash: Hash): Hash {
    if Changed(e, o) && o.id !in e.oversize then o.hash else hash
  }

  /** A followed object after its operations. */
  function After(e: Scan, o: Observed, x: Entry): Entry {
    if Moved(e, o) then Entry(o.parent, NameOf(o), Hashed(e, o, x.hash)) else x.(hash := Hashed(e, o, x.hash))
  }

  /** What becomes of an object. */
  function Final(e: Scan, v: View, id: Uuid): Option<Entry> {
    if id in e.current then
      match FateOf(e, e.current[id])
      case Ignore => At(v, id)
      case MakeNew => if id in e.oversize then None
        else Some(Entry(e.current[id].parent, NameOf(e.current[id]), e.current[id].hash))
      case Follow => if id in v then Some(After(e, e.current[id], v[id])) else None
    else if Removed(e, id) then None
    else At(v, id)
  }

  ghost predicate Shown(e: Scan, v: View, u: View, done: set<Uuid>) {
    forall id :: At(u, id) == if id in done then Final(e, v, id) else At(v, id)
  }

  lemma PlayLast(v: View, ms: seq<Mutation>, m: Mutation)
    ensures Play(v, ms + [m]) == if Play(v, ms) == None then None else Apply(Play(v, ms).value, m)
  {
    assert (ms + [m])[..|ms + [m]| - 1] == ms;
    hide Apply;
  }

  lemma ShownAt(e: Scan, v: View, u: View, done: set<Uuid>, id: Uuid)
    requires Shown(e, v, u, done)
    ensures At(u, id) == if id in done then Final(e, v, id) else At(v, id)
  {
    hide Final, At;
  }

  lemma AtIs(v: View, id: Uuid)
    ensures At(v, id) == if id in v then Some(v[id]) else None
  {
  }

  lemma ShownNext(e: Scan, v: View, u: View, w: View, done: set<Uuid>, id: Uuid)
    requires Shown(e, v, u, done) && At(w, id) == Final(e, v, id) && forall x :: x != id ==> At(w, x) == At(u, x)
    ensures Shown(e, v, w, done + {id})
  {
    hide Final, At;
  }

  // ---------------------------------------------------------------- creates

  /** The new object's folder is there: the vault root, a folder new in this batch, or one the queue knows. */
  ghost predicate Placeable(e: Scan, v: View, done: set<Uuid>, o: Observed) {
    o.parent == NIL || Durable(e.s, o.parent) || (o.parent in done && Final(e, v, o.parent).Some?)
  }

  lemma NotDurable(e: Scan, v: View, o: Observed)
    requires ProjectedView(e, v) && FateOf(e, o) == MakeNew
    ensures o.id !in v && !Durable(e.s, o.id)
  {
    hide Durable, Considered;
  }

  lemma FinalNew(e: Scan, v: View, o: Observed)
    requires o.id in e.current && e.current[o.id] == o && FateOf(e, o) == MakeNew
    ensures Final(e, v, o.id) == if o.id in e.oversize then None else Some(Entry(o.parent, NameOf(o), o.hash))
  {
    hide Considered, Durable;
  }

  lemma ApplyCreate(u: View, o: Observed, op: Uuid, d: Option<Uuid>)
    requires o.id !in u
    ensures Apply(u, CreateOp(o, op, d))
            == if o.parent != NIL && o.parent !in u then None else Some(u[o.id := Entry(o.parent, NameOf(o), o.hash)])
  {
  }

  lemma AtUpdated(u: View, id: Uuid, x: Entry, y: Uuid)
    ensures At(u[id := x], y) == if y == id then Some(x) else At(u, y)
  {
  }

  /** Objects handled before the changes are new ones. */
  ghost predicate OnlyNew(e: Scan, done: set<Uuid>) {
    forall id :: id in done ==> !Durable(e.s, id)
  }

  lemma PlaceLegal(e: Scan, v: View, u: View, done: set<Uuid>, o: Observed)
    requires ProjectedView(e, v) && Shown(e, v, u, done) && Placeable(e, v, done, o) && OnlyNew(e, done)
    ensures o.parent == NIL || o.parent in u <==> LegalCreate(e, v, o)
  {
    hide Durable, Final;
    if o.parent != NIL {
      ShownAt(e, v, u, done, o.parent);
    }
  }

  lemma CreateShown(e: Scan, v: View, u: View, done: set<Uuid>, o: Observed, op: Uuid, d: Option<Uuid>)
    requires ProjectedView(e, v) && Shown(e, v, u, done) && OnlyNew(e, done) && o.id !in done
    requires o.id in e.current && e.current[o.id] == o && FateOf(e, o) == MakeNew && o.id !in e.oversize
             && Placeable(e, v, done, o)
    ensures var w := Apply(u, CreateOp(o, op, d));
            (w.Some? <==> LegalCreate(e, v, o)) && (w.Some? ==> Shown(e, v, w.value, done + {o.id}))
  {
    hide *;
    NotDurable(e, v, o);
    ShownAt(e, v, u, done, o.id);
    AtIs(u, o.id);
    AtIs(v, o.id);
    FinalNew(e, v, o);
    PlaceLegal(e, v, u, done, o);
    ApplyCreate(u, o, op, d);
    var x := Entry(o.parent, NameOf(o), o.hash);
    if o.parent == NIL || o.parent in u {
      forall y
        ensures At(u[o.id := x], y) == if y == o.id then Some(x) else At(u, y)
      {
        AtUpdated(u, o.id, x, y);
      }
      ShownNext(e, v, u, u[o.id := x], done, o.id);
    }
  }

  /** A note too large to stage stays unknown. */
  lemma SkippedShown(e: Scan, v: View, u: View, done: set<Uuid>, o: Observed)
    requires ProjectedView(e, v) && Shown(e, v, u, done) && o.id !in done
    requires o.id in e.current && e.current[o.id] == o && FateOf(e, o) == MakeNew && o.id in e.oversize
    ensures Shown(e, v, u, done + {o.id})
  {
    hide *;
    NotDurable(e, v, o);
    ShownAt(e, v, u, done, o.id);
    AtIs(v, o.id);
    FinalNew(e, v, o);
    ShownNext(e, v, u, u, done, o.id);
  }

  // ---------------------------------------------------------------- changes

  lemma ApplyMove(u: View, o: Observed, op: Uuid, base: nat, d: Option<Uuid>, ds: seq<Uuid>)
    ensures Apply(u, MoveOp(o, op, base, d, ds))
            == if o.id !in u || (o.parent != NIL && o.parent !in u) then None
              else Some(u[o.id := Entry(o.parent, NameOf(o), u[o.id].hash)])
  {
  }

  lemma ApplyUpdate(u: View, o: Observed, op: Uuid, base: nat, d: Option<Uuid>)
    ensures Apply(u, UpdateOp(o, op, base, d)) == if o.id !in u then None else Some(u[o.id := u[o.id].(hash := o.hash)])
  {
  }

  lemma PlayTwo(v: View, ms: seq<Mutation>, a: seq<Mutation>, b: seq<Mutation>)
    requires |a| <= 1 && |b| <= 1
    ensures var p := Play(v, ms);
            var q := if a == [] || p == None then p else Apply(p.value, a[0]);
            Play(v, ms + a + b) == if b == [] || q == None then q else Apply(q.value, b[0])
  {
    CaptureOps.Joined3(ms, a, b);
    if a != [] {
      PlayLast(v, ms, a[0]);
    }
    if b != [] {
      PlayLast(v, if a == [] then ms else ms + [a[0]], b[0]);
    }
    hide Play, Apply;
    assert ms + a == if a == [] then ms else ms + [a[0]];
  }

  /** The two steps of a followed object, on the entry it has. */
  lemma ChangeApplied(e: Scan, gen: nat -> Uuid, k: nat, u: View, o: Observed)
    ensures var a, b := Moves(e, gen, k, o), Updates(e, gen, k, o);
            && |a| <= 1 && |b| <= 1
            && var q := if a == [] then Some(u) else Apply(u, a[0]);
               var r := if b == [] || q == None then q else Apply(q.value, b[0]);
               && (r.Some? <==> (Moved(e, o) ==> o.id in u && (o.parent != NIL ==> o.parent in u))
                                && (Changed(e, o) && o.id !in e.oversize ==> o.id in u))
               && (r.Some? ==> r.value == if o.id in u then u[o.id := After(e, o, u[o.id])] else u)
  {
    OpsAre(e, gen, k, o);
    hide Moved, Changed, Moves, Updates, Projected, LastQueued, Additional, Apply, NameOf;
    ApplyMove(u, o, gen(k), Projected(e.s, o.id), Last(e.s, o.id), Additional(e, o));
    if o.id in u {
      var w := u[o.id := Entry(o.parent, NameOf(o), u[o.id].hash)];
      ApplyUpdate(w, o, gen(k + 1), Projected(e.s, o.id) + 1, Some(gen(k)));
    }
    ApplyUpdate(u, o, gen(k), Projected(e.s, o.id), Last(e.s, o.id));
  }

  lemma FinalFollow(e: Scan, v: View, o: Observed)
    requires o.id in e.current && e.current[o.id] == o && FateOf(e, o) == Follow
    ensures Final(e, v, o.id) == if o.id in v then Some(After(e, o, v[o.id])) else None
    ensures Durable(e.s, o.id)
  {
    hide Considered, Durable, After;
  }

  /** Every folder handled before is still where the view has it. */
  ghost predicate KeepsFolders(e: Scan, v: View, done: set<Uuid>) {
    forall id :: id in done && Durable(e.s, id) ==> (Final(e, v, id).Some? <==> id in v)
  }

  /** A move's folder is one the queue knows. */
  predicate Reachable(e: Scan, o: Observed) {
    Moved(e, o) && o.parent != NIL ==> Durable(e.s, o.parent)
  }

  lemma FolderKept(e: Scan, v: View, u: View, done: set<Uuid>, id: Uuid)
    requires Shown(e, v, u, done) && KeepsFolders(e, v, done) && Durable(e.s, id)
    ensures id in u <==> id in v
  {
    hide Durable, Final;
    ShownAt(e, v, u, done, id);
  }

  lemma FoldersNext(e: Scan, v: View, done: set<Uuid>, o: Observed)
    requires KeepsFolders(e, v, done) && (Final(e, v, o.id).Some? <==> o.id in v)
    ensures KeepsFolders(e, v, done + {o.id})
  {
    hide Durable, Final;
  }

  lemma LegalChangeIs(e: Scan, v: View, o: Observed)
    ensures LegalChange(e, v, o) <==> (Moved(e, o) ==> o.id in v && (o.parent != NIL ==> o.parent in v))
                                      && (Changed(e, o) && o.id !in e.oversize ==> o.id in v)
  {
    hide Moved, Changed;
  }

  lemma ChangeShown(e: Scan, gen: nat -> Uuid, k: nat, v: View, ms: seq<Mutation>, u: View, done: set<Uuid>,
                    o: Observed)
    requires Play(v, ms) == Some(u) && Shown(e, v, u, done) && KeepsFolders(e, v, done) && o.id !in done
    requires o.id in e.current && e.current[o.id] == o && FateOf(e, o) == Follow && Reachable(e, o)
    ensures var w := Play(v, ms + Moves(e, gen, k, o) + Updates(e, gen, k, o));
            (w.Some? <==> LegalChange(e, v, o)) && (w.Some? ==> Shown(e, v, w.value, done + {o.id}))
    ensures KeepsFolders(e, v, done + {o.id})
  {
    var a, b := Moves(e, gen, k, o), Updates(e, gen, k, o);
    assert Moved(e, o) && o.parent != NIL ==> Durable(e.s, o.parent);
    hide *;
    ChangeApplied(e, gen, k, u, o);
    PlayTwo(v, ms, a, b);
    FinalFollow(e, v, o);
    FoldersNext(e, v, done, o);
    ShownAt(e, v, u, done, o.id);
    AtIs(u, o.id);
    AtIs(v, o.id);
    LegalChangeIs(e, v, o);
    if Moved(e, o) && o.parent != NIL {
      FolderKept(e, v, u, done, o.parent);
    }
    var w := if o.id in u then u[o.id := After(e, o, u[o.id])] else u;
    forall y
      ensures At(w, y) == if y == o.id then Final(e, v, o.id) else At(u, y)
    {
      if o.id in u {
        AtUpdated(u, o.id, After(e, o, u[o.id]), y);
      }
    }
    ShownNext(e, v, u, w, done, o.id);
  }

  // ---------------------------------------------------------------- deletes

  lemma FinalGone(e: Scan, v: View, id: Uuid)
    requires Removed(e, id)
    ensures Final(e, v, id) == None && id in e.earlier && Durable(e.s, id)
  {
    hide Durable;
  }

  lemma ApplyDelete(u: View, o: Observed, op: Uuid, base: nat, d: Option<Uuid>, ds: seq<Uuid>, y: Uuid)
    requires o.id in u
    ensures var w := Apply(u, DeleteOp(o, op, base, d, ds));
            w.Some? && At(w.value, y) == if y == o.id then None else At(u, y)
  {
  }

  lemma DeleteShown(e: Scan, v: View, u: View, done: set<Uuid>, o: Observed, op: Uuid, base: nat, d: Option<Uuid>,
                    ds: seq<Uuid>)
    requires ProjectedView(e, v) && Shown(e, v, u, done) && o.id !in done && Removed(e, o.id)
    ensures var w := Apply(u, DeleteOp(o, op, base, d, ds)); w.Some? && Shown(e, v, w.value, done + {o.id})
  {
    hide *;
    FinalGone(e, v, o.id);
    TrackedIn(e, v, o.id);
    ShownAt(e, v, u, done, o.id);
    AtIs(u, o.id);
    AtIs(v, o.id);
    ApplyDelete(u, o, op, base, d, ds, o.id);
    forall y
      ensures At(Apply(u, DeleteOp(o, op, base, d, ds)).value, y) == if y == o.id then None else At(u, y)
    {
      ApplyDelete(u, o, op, base, d, ds, y);
    }
    ShownNext(e, v, u, Apply(u, DeleteOp(o, op, base, d, ds)).value, done, o.id);
  }

  lemma TrackedIn(e: Scan, v: View, id: Uuid)
    requires ProjectedView(e, v) && id in e.earlier && Durable(e.s, id)
    ensures id in v && Matches(v[id], e.earlier[id])
  {
    hide Durable, Matches;
  }

  // ---------------------------------------------------------------- the outcome

  /** The tracked objects are where the new snapshot has them, with its bytes unless they are too large to stage; the
      vanished ones are gone; and nothing else changed. */
  ghost predicate Caught(e: Scan, v: View, u: View) {
    && (forall id :: id in e.current && FateOf(e, e.current[id]) != Ignore && id !in e.oversize ==>
          id in u && Matches(u[id], e.current[id]))
    && (forall id :: id in e.current && FateOf(e, e.current[id]) == Follow && id in e.oversize ==>
          id in u ==> u[id].parent == e.current[id].parent && u[id].name == NameOf(e.current[id]))
    && (forall id :: Gone(e, id) ==> id !in u)
    && (forall id :: !Gone(e, id) && (id in e.current ==> FateOf(e, e.current[id]) == Ignore) ==>
          At(u, id) == At(v, id))
  }

  ghost predicate Legal(e: Scan, v: View) {
    && (forall id :: id in e.current && FateOf(e, e.current[id]) == MakeNew && id !in e.oversize ==>
          LegalCreate(e, v, e.current[id]))
    && (forall id :: id in e.current && FateOf(e, e.current[id]) == Follow ==> LegalChange(e, v, e.current[id]))
  }

  /** The ids the batch is about. */
  ghost predicate Handled(e: Scan, id: Uuid) {
    (id in e.current && FateOf(e, e.current[id]) != Ignore) || Removed(e, id)
  }

  /** An object missing from the previous snapshot counts as moved and, if it is a note, as changed. */
  lemma AppearedMoved(e: Scan, o: Observed)
    requires o.id !in e.earlier && ObservedOk(o)
    ensures Moved(e, o) && (o.otype == Note ==> Changed(e, o))
  {
    hide ValidObjectId;
    assert NameOf(o)[|NameOf(o)| - 1] !in " .";
  }

  lemma KeptName(e: Scan, o: Observed, x: Entry)
    requires o.id in e.earlier && Matches(x, e.earlier[o.id]) && ObservedOk(o) && ObservedOk(e.earlier[o.id])
    ensures !Moved(e, o) ==> x.parent == o.parent && x.name == NameOf(o)
    ensures o.otype == Note && !Changed(e, o) ==> x.hash == o.hash
  {
    hide ValidObjectId, ValidComponent, NameOf;
  }

  lemma AfterIs(e: Scan, o: Observed, x: Entry)
    ensures After(e, o, x).parent == (if Moved(e, o) then o.parent else x.parent)
    ensures After(e, o, x).name == (if Moved(e, o) then NameOf(o) else x.name)
    ensures After(e, o, x).hash == (if Changed(e, o) && o.id !in e.oversize then o.hash else x.hash)
  {
    hide Moved, Changed, NameOf;
  }

  lemma FollowMatches(e: Scan, v: View, o: Observed)
    requires ScanOk(e) && ProjectedView(e, v) && LegalChange(e, v, o) && o.id in e.current && e.current[o.id] == o
             && FateOf(e, o) == Follow
    ensures o.id !in e.oversize ==> o.id in v && Matches(After(e, o, v[o.id]), o)
    ensures o.id in v ==> After(e, o, v[o.id]).parent == o.parent && After(e, o, v[o.id]).name == NameOf(o)
  {
    hide *;
    ScanAt(e, o.id);
    FinalFollow(e, v, o);
    LegalChangeIs(e, v, o);
    if o.id in e.earlier {
      TrackedIn(e, v, o.id);
      KeptName(e, o, v[o.id]);
    } else {
      AppearedMoved(e, o);
    }
    if o.id in v {
      AfterIs(e, o, v[o.id]);
      if o.id !in e.oversize {
        MatchesIf(After(e, o, v[o.id]), o);
      }
    }
  }

  lemma MatchesIf(x: Entry, o: Observed)
    requires x.parent == o.parent && x.name == NameOf(o) && (o.otype == Note ==> x.hash == o.hash)
    ensures Matches(x, o)
  {
    hide NameOf;
  }

  lemma ScanAt(e: Scan, id: Uuid)
    requires ScanOk(e)
    ensures id in e.current ==> e.current[id].id == id && ObservedOk(e.current[id])
    ensures id in e.earlier ==> e.earlier[id].id == id && ObservedOk(e.earlier[id])
    ensures id in e.oversize && id in e.current ==> e.current[id].otype == Note
  {
    hide ObservedOk;
  }

  lemma LegalAt(e: Scan, v: View, id: Uuid)
    requires Legal(e, v) && id in e.current
    ensures FateOf(e, e.current[id]) == Follow ==> LegalChange(e, v, e.current[id])
  {
    hide FateOf, LegalChange, LegalCreate;
  }

  lemma FinalTracked(e: Scan, v: View, id: Uuid)
    requires ScanOk(e) && ProjectedView(e, v) && Legal(e, v) && id in e.current && FateOf(e, e.current[id]) != Ignore
    ensures id !in e.oversize ==> Final(e, v, id).Some? && Matches(Final(e, v, id).value, e.current[id])
    ensures FateOf(e, e.current[id]) == Follow && Final(e, v, id).Some?
            ==> Final(e, v, id).value.parent == e.current[id].parent
                && Final(e, v, id).value.name == NameOf(e.current[id])
  {
    hide *;
    var o := e.current[id];
    ScanAt(e, id);
    if FateOf(e, o) == Follow {
      LegalAt(e, v, id);
      FinalFollow(e, v, o);
      FollowMatches(e, v, o);
    } else {
      FinalNew(e, v, o);
      MatchesIf(Entry(o.parent, NameOf(o), o.hash), o);
    }
  }

  lemma FinalOther(e: Scan, v: View, id: Uuid)
    requires ProjectedView(e, v)
    ensures Gone(e, id) ==> (Removed(e, id) || At(v, id) == None) && (Removed(e, id) ==> Final(e, v, id) == None)
    ensures Gone(e, id) ==> id !in e.current
  {
    hide Durable;
  }

  /** Once everything is handled, the view is what the new snapshot says. */
  lemma AllCaught(e: Scan, v: View, u: View, done: set<Uuid>)
    requires ScanOk(e) && ProjectedView(e, v) && Legal(e, v) && Shown(e, v, u, done)
    requires forall id :: id in done <==> Handled(e, id)
    ensures Caught(e, v, u)
  {
    hide *;
    forall id | id in e.current && FateOf(e, e.current[id]) != Ignore
      ensures id !in e.oversize ==> id in u && Matches(u[id], e.current[id])
      ensures FateOf(e, e.current[id]) == Follow ==> id in u ==>
                u[id].parent == e.current[id].parent && u[id].name == NameOf(e.current[id])
    {
      HandledIs(e, id);
      ShownAt(e, v, u, done, id);
      AtIs(u, id);
      FinalTracked(e, v, id);
    }
    forall id | Gone(e, id)
      ensures id !in u
    {
      HandledIs(e, id);
      FinalOther(e, v, id);
      ShownAt(e, v, u, done, id);
      AtIs(u, id);
    }
    forall id | !Gone(e, id) && (id in e.current ==> FateOf(e, e.current[id]) == Ignore)
      ensures At(u, id) == At(v, id)
    {
      HandledIs(e, id);
      ShownAt(e, v, u, done, id);
    }
    CaughtIf(e, v, u);
  }

  lemma HandledIs(e: Scan, id: Uuid)
    ensures Handled(e, id) <==> (id in e.current && FateOf(e, e.current[id]) != Ignore) || Removed(e, id)
    ensures Removed(e, id) ==> Gone(e, id)
  {
    hide FateOf, Gone, Durable;
  }

  lemma CaughtIf(e: Scan, v: View, u: View)
    requires forall id :: id in e.current && FateOf(e, e.current[id]) != Ignore && id !in e.oversize ==>
               id in u && Matches(u[id], e.current[id])
    requires forall id :: id in e.current && FateOf(e, e.current[id]) == Follow && id in e.oversize ==>
               id in u ==> u[id].parent == e.current[id].parent && u[id].name == NameOf(e.current[id])
    requires forall id :: Gone(e, id) ==> id !in u
    requires forall id :: !Gone(e, id) && (id in e.current ==> FateOf(e, e.current[id]) == Ignore) ==>
               At(u, id) == At(v, id)
    ensures Caught(e, v, u)
  {
    hide FateOf, Matches, Gone, At, NameOf;
  }
}
