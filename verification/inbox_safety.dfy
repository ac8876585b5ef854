/** What every run of the inbox keeps, against the server's log. */
module InboxSafety {
  import opened Ids
  import opened Inbox

  /** The server log so far (cursor c is entry c - 1), the cursors of the client's own operations whose answers it
      recorded, the first cursor the inbox stores, and the client's tables. */
  datatype World = World(log: seq<Change>, own: set<nat>, first: nat, t: Tables)

  /** The number of log entries of o among the first n: the revision o has on the server after them. */
  function Entries(log: seq<Change>, o: Uuid, n: nat): nat
    requires n <= |log|
  {
    if n == 0 then 0 else Entries(log, o, n - 1) + (if log[n - 1].obj == o then 1 else 0)
  }

  /** Cursors count up from one and revisions are contiguous per object. */
  ghost predicate LogOk(log: seq<Change>) {
    && (forall i :: 0 <= i < |log| ==> log[i].cursor == i + 1 && ValidChange(log[i]))
    && (forall i :: 0 <= i < |log| ==> log[i].revision == Entries(log, log[i].obj, i) + 1)
  }

  predicate IsApplied(t: Tables, c: nat) {
    1 <= c <= t.confirmed || (c in t.inbox && t.inbox[c].state == Applied)
  }

  /** The effect of log entry c is in the baseline. */
  predicate Known(w: World, c: nat) {
    IsApplied(w.t, c) || c in w.own
  }

  /** The largest known revision of o among the first n entries. */
  function Top(w: World, o: Uuid, n: nat): nat
    requires n <= |w.log|
  {
    if n == 0 then 0
    else if w.log[n - 1].obj == o && Known(w, n) && w.log[n - 1].revision > Top(w, o, n - 1) then w.log[n - 1].revision
    else Top(w, o, n - 1)
  }

  ghost predicate InboxIsLog(w: World) {
    && (forall c: nat :: c in w.t.inbox <==> w.first <= c <= w.t.downloaded)
    && 1 <= w.first <= w.t.confirmed + 1
    && w.t.confirmed <= w.t.downloaded <= |w.log|
    && (forall c :: c in w.t.inbox ==> 1 <= c <= |w.log| && w.t.inbox[c].change == w.log[c - 1])
  }

  /** Applied entries of an object form a prefix of its log. */
  ghost predicate AppliedPrefix(w: World) {
    forall c, e :: 1 <= e < c <= |w.log| && w.log[c - 1].obj == w.log[e - 1].obj && IsApplied(w.t, c) ==>
      IsApplied(w.t, e)
  }

  ghost predicate BaselinesKnown(w: World) {
    forall o :: Revision(w.t.baselines, o) == Top(w, o, |w.log|)
  }

  /** Active plans carry log entries: a linked one its row, an ordered one every entry of its range. */
  ghost predicate PlanOk(w: World, id: Uuid)
    requires id in w.t.plans
  {
    var p := w.t.plans[id];
    if id in w.t.links then
      && var c := w.t.links[id];
         && c in w.t.inbox && |p.steps| == 1 && p.steps[0].change == w.t.inbox[c].change
         && (ActivePlan(p) ==> NoEarlierOpen(w.t, c, w.t.inbox[c].change.obj))
    else
      ActivePlan(p) ==>
        && p.from <= p.through <= w.t.downloaded <= |w.log| && |p.steps| == p.through - p.from
        && forall k :: 0 <= k < |p.steps| ==> p.steps[k].change == w.log[p.from + k]
  }

  ghost predicate PlansOk(w: World) {
    forall id :: id in w.t.plans ==> PlanOk(w, id)
  }

  ghost predicate WorldOk(w: World) {
    LogOk(w.log) && InboxIsLog(w) && AppliedPrefix(w) && BaselinesKnown(w) && PlansOk(w)
  }

  // ---------------------------------------------------------------- log facts

  lemma EntryAt(log: seq<Change>, i: nat)
    requires LogOk(log) && i < |log|
    ensures log[i].cursor == i + 1 && log[i].revision == Entries(log, log[i].obj, i) + 1 && ValidChange(log[i])
  {
  }

  lemma {:induction false} TopSame(w: World, v: World, o: Uuid, n: nat)
    requires n <= |w.log| && n <= |v.log| && w.log[..n] == v.log[..n]
    requires forall c :: 1 <= c <= n ==> Known(w, c) == Known(v, c)
    ensures Top(w, o, n) == Top(v, o, n)
  {
    if n > 0 {
      assert w.log[..n - 1] == w.log[..n][..n - 1] == v.log[..n - 1];
      assert w.log[n - 1] == w.log[..n][n - 1] == v.log[n - 1];
      TopSame(w, v, o, n - 1);
    }
  }

  function Max(a: nat, b: nat): nat {
    if a > b then a else b
  }

  /** Learning of one more entry raises its object's top to that entry's revision, and no other top. */
  lemma {:induction false} TopLearns(w: World, v: World, o: Uuid, c: nat, n: nat)
    requires w.log == v.log && 1 <= c && n <= |w.log|
    requires Known(v, c) && forall e :: 1 <= e <= n && e != c ==> Known(w, e) == Known(v, e)
    ensures Top(v, o, n) == if c <= n && w.log[c - 1].obj == o then Max(Top(w, o, n), w.log[c - 1].revision)
            else Top(w, o, n)
  {
    if n > 0 {
      TopLearns(w, v, o, c, n - 1);
    }
  }

  // ---------------------------------------------------------------- steps that apply nothing

  /** The same entries are applied and the baselines are the same. */
  ghost predicate SameKnowledge(w: World, v: World) {
    && w.log == v.log && w.own == v.own && w.t.baselines == v.t.baselines
    && forall c: nat :: IsApplied(w.t, c) == IsApplied(v.t, c)
  }

  lemma KnowledgeKept(w: World, v: World)
    requires AppliedPrefix(w) && BaselinesKnown(w) && SameKnowledge(w, v)
    ensures AppliedPrefix(v) && BaselinesKnown(v)
  {
    hide IsApplied;
    forall o
      ensures Revision(v.t.baselines, o) == Top(v, o, |v.log|)
    {
      TopSame(w, v, o, |w.log|);
    }
  }

  /** Row states only move forward, rows stay, and the frontier does not move back. */
  ghost predicate Forward(t: Tables, u: Tables) {
    && (forall c :: c in t.inbox ==> c in u.inbox && u.inbox[c].change == t.inbox[c].change)
    && (forall c :: c in t.inbox && t.inbox[c].state == Applied ==> u.inbox[c].state == Applied)
    && t.confirmed <= u.confirmed && t.downloaded <= u.downloaded
  }

  lemma PlanCarried(w: World, v: World, id: Uuid)
    requires id in w.t.plans && PlanOk(w, id) && id in v.t.plans
    requires Forward(w.t, v.t) && w.log <= v.log && InboxIsLog(w) && InboxIsLog(v) && w.first == v.first
    requires (id in w.t.links) == (id in v.t.links) && (id in w.t.links ==> w.t.links[id] == v.t.links[id])
    requires v.t.plans[id].from == w.t.plans[id].from && v.t.plans[id].through == w.t.plans[id].through
    requires |v.t.plans[id].steps| == |w.t.plans[id].steps|
    requires forall k :: 0 <= k < |w.t.plans[id].steps| ==>
               v.t.plans[id].steps[k].change == w.t.plans[id].steps[k].change
    requires ActivePlan(v.t.plans[id]) ==> ActivePlan(w.t.plans[id])
    ensures PlanOk(v, id)
  {
  }

  /** The plan table itself is untouched, or one plan changes only its status or step marks. */
  ghost predicate SamePlans(t: Tables, u: Tables) {
    && t.plans.Keys == u.plans.Keys && t.links == u.links
    && forall id :: id in t.plans ==>
         && u.plans[id].from == t.plans[id].from && u.plans[id].through == t.plans[id].through
         && |u.plans[id].steps| == |t.plans[id].steps|
         && (forall k :: 0 <= k < |t.plans[id].steps| ==> u.plans[id].steps[k].change == t.plans[id].steps[k].change)
         && (ActivePlan(u.plans[id]) ==> ActivePlan(t.plans[id]))
  }

  lemma PlansKept(w: World, v: World)
    requires PlansOk(w) && Forward(w.t, v.t) && w.log <= v.log && InboxIsLog(w) && InboxIsLog(v) && w.first == v.first
             && SamePlans(w.t, v.t)
    ensures PlansOk(v)
  {
    hide PlanOk, InboxIsLog, Forward;
    forall id | id in v.t.plans
      ensures PlanOk(v, id)
    {
      assert PlanOk(w, id);
      PlanCarried(w, v, id);
    }
  }

  /** A step that applies nothing and starts no plan. */
  ghost predicate Quiet(w: World, v: World) {
    SameKnowledge(w, v) && InboxIsLog(v) && Forward(w.t, v.t) && SamePlans(w.t, v.t) && w.first == v.first
  }

  lemma QuietStep(w: World, v: World)
    requires WorldOk(w) && Quiet(w, v)
    ensures WorldOk(v)
  {
    OpenQuiet(w, v);
    hide *;
    Open(w);
    KnowledgeKept(w, v);
    LogSame(w, v);
    PlansKept(w, v);
    Close(v);
  }

  lemma OpenQuiet(w: World, v: World)
    requires Quiet(w, v)
    ensures SameKnowledge(w, v) && InboxIsLog(v) && Forward(w.t, v.t) && SamePlans(w.t, v.t) && w.first == v.first
  {
  }

  lemma LogSame(w: World, v: World)
    requires SameKnowledge(w, v) && LogOk(w.log)
    ensures w.log <= v.log && LogOk(v.log)
  {
  }

  lemma Open(w: World)
    requires WorldOk(w)
    ensures LogOk(w.log) && InboxIsLog(w) && AppliedPrefix(w) && BaselinesKnown(w) && PlansOk(w)
  {
  }

  lemma Close(w: World)
    requires LogOk(w.log) && InboxIsLog(w) && AppliedPrefix(w) && BaselinesKnown(w) && PlansOk(w)
    ensures WorldOk(w)
  {
  }

  // ---------------------------------------------------------------- bookkeeping steps

  lemma SetRowQuiet(w: World, c: nat, state: RowState)
    requires InboxIsLog(w) && c in w.t.inbox && state != Applied && w.t.inbox[c].state != Applied
    ensures var v := w.(t := SetRow(w.t, c, state)); SameKnowledge(w, v) && InboxIsLog(v) && Forward(w.t, v.t)
  {
  }

  lemma BeginQuiet(w: World, id: Uuid)
    requires InboxIsLog(w)
    ensures Quiet(w, w.(t := Begin(w.t, id)))
  {
    var v := w.(t := Begin(w.t, id));
    BeginPlans(w.t, id);
    if id in w.t.plans && w.t.plans[id].status == Planned && id in w.t.links {
      var c := w.t.links[id];
      if c in w.t.inbox && w.t.inbox[c].state != Applied {
        SetRowQuiet(w, c, Applying);
        hide SamePlans;
      }
    }
  }

  lemma BeginPlans(t: Tables, id: Uuid)
    ensures SamePlans(t, Begin(t, id))
  {
  }

  lemma BeginKeeps(w: World, id: Uuid)
    requires WorldOk(w)
    ensures WorldOk(w.(t := Begin(w.t, id)))
  {
    hide *;
    Open(w);
    BeginQuiet(w, id);
    QuietStep(w, w.(t := Begin(w.t, id)));
  }

  lemma MarkQuiet(w: World, id: Uuid, k: nat)
    requires InboxIsLog(w)
    ensures Quiet(w, w.(t := MarkStep(w.t, id, k)))
  {
  }

  lemma MarkKeeps(w: World, id: Uuid, k: nat)
    requires WorldOk(w)
    ensures WorldOk(w.(t := MarkStep(w.t, id, k)))
  {
    hide *;
    Open(w);
    MarkQuiet(w, id, k);
    QuietStep(w, w.(t := MarkStep(w.t, id, k)));
  }

  lemma AbandonQuiet(w: World, id: Uuid)
    requires InboxIsLog(w)
    ensures Quiet(w, w.(t := Abandon(w.t, id)))
  {
  }

  lemma AbandonKeeps(w: World, id: Uuid)
    requires WorldOk(w)
    ensures WorldOk(w.(t := Abandon(w.t, id)))
  {
    hide *;
    Open(w);
    AbandonQuiet(w, id);
    QuietStep(w, w.(t := Abandon(w.t, id)));
  }

  lemma ReconciledQuiet(w: World)
    requires InboxIsLog(w)
    ensures Quiet(w, w.(t := w.t.(inbox := Reconciled(w.t.inbox, w.t.confirmed))))
  {
    assert forall c: nat :: c in w.t.inbox ==> c >= 1;
  }

  lemma StayQuiet(w: World)
    requires InboxIsLog(w)
    ensures Quiet(w, w)
  {
  }

  lemma ReconcileQuiet(w: World)
    requires InboxIsLog(w)
    ensures Quiet(w, w.(t := Reconcile(w.t)))
  {
    StayQuiet(w);
    ReconciledQuiet(w);
    assert w.t.confirmed <= w.t.downloaded;
    hide InboxIsLog, Quiet, Gapless, Reconciled;
  }

  lemma ReconcileKeeps(w: World)
    requires WorldOk(w)
    ensures WorldOk(w.(t := Reconcile(w.t)))
  {
    hide *;
    Open(w);
    ReconcileQuiet(w);
    QuietStep(w, w.(t := Reconcile(w.t)));
  }

  /** The reconciliation never reports a missing range. */
  lemma ReconcileNeverFails(w: World)
    requires WorldOk(w)
    ensures w.t.inbox == map[] || Gapless(w.t)
    ensures forall c :: c in Reconcile(w.t).inbox && c <= w.t.confirmed ==> Reconcile(w.t).inbox[c].state == Applied
  {
    hide AppliedPrefix, BaselinesKnown, PlansOk, LogOk;
  }

  lemma {:induction false} FrontierApplied(inbox: map<nat, InboxRow>, from: nat, downloaded: nat)
    requires from <= downloaded
    ensures from <= Frontier(inbox, from, downloaded) <= downloaded
    ensures forall c :: from < c <= Frontier(inbox, from, downloaded) ==> c in inbox && inbox[c].state == Applied
    ensures var f := Frontier(inbox, from, downloaded);
            f == downloaded || f + 1 !in inbox || inbox[f + 1].state != Applied
    decreases downloaded - from
  {
    if from < downloaded && from + 1 in inbox && inbox[from + 1].state == Applied {
      FrontierApplied(inbox, from + 1, downloaded);
    }
  }

  lemma AdvanceQuiet(w: World)
    requires InboxIsLog(w)
    ensures Quiet(w, w.(t := AdvanceConfirmed(w.t)))
  {
    FrontierApplied(w.t.inbox, w.t.confirmed, w.t.downloaded);
    hide Frontier;
  }

  lemma AdvanceKeeps(w: World)
    requires WorldOk(w)
    ensures WorldOk(w.(t := AdvanceConfirmed(w.t)))
  {
    hide *;
    Open(w);
    AdvanceQuiet(w);
    QuietStep(w, w.(t := AdvanceConfirmed(w.t)));
  }

  lemma {:induction false} InsertedRows(inbox: map<nat, InboxRow>, from: nat, page: seq<Change>)
    requires Contiguous(from, page)
    ensures forall c: nat :: c in Inserted(inbox, page) <==> c in inbox || from < c <= from + |page|
    ensures forall c: nat :: c in Inserted(inbox, page) ==>
      Inserted(inbox, page)[c] == if from < c <= from + |page| then InboxRow(page[c - from - 1], Waiting) else inbox[c]
  {
    if page != [] {
      var init := page[..|page| - 1];
      assert Contiguous(from, init);
      InsertedRows(inbox, from, init);
    }
  }

  /** What taking a page of the log does to the rows. */
  ghost predicate Extended(w: World, v: World, from: nat, next: nat) {
    && from == w.t.downloaded && from <= next <= |w.log| && v == w.(t := w.t.(inbox := v.t.inbox, downloaded := next))
    && (forall c: nat :: c in v.t.inbox <==> c in w.t.inbox || from < c <= next)
    && (forall c: nat :: from < c <= next ==> c in v.t.inbox && v.t.inbox[c] == InboxRow(w.log[c - 1], Waiting))
    && (forall c: nat :: c in w.t.inbox && c <= from ==> c in v.t.inbox && v.t.inbox[c] == w.t.inbox[c])
  }

  lemma IngestExtends(w: World, from: nat, next: nat)
    requires from == w.t.downloaded && from <= next <= |w.log| && PageFits(w.t, from, next, w.log[from..next])
    ensures Extended(w, w.(t := Ingest(w.t, from, next, w.log[from..next])), from, next)
  {
    var page := w.log[from..next];
    hide *;
    PageShaped(w.t, from, next, page);
    InsertedRows(w.t.inbox, from, page);
    ExtendedBy(w, Inserted(w.t.inbox, page), from, next, page);
  }

  lemma PageShaped(t: Tables, from: nat, next: nat, page: seq<Change>)
    requires PageFits(t, from, next, page) && from == t.downloaded
    ensures Contiguous(from, page)
            && Ingest(t, from, next, page) == t.(inbox := Inserted(t.inbox, page), downloaded := next)
  {
    hide Inserted, ValidChange, Replays, Contiguous;
  }

  lemma ExtendedBy(w: World, u: map<nat, InboxRow>, from: nat, next: nat, page: seq<Change>)
    requires from == w.t.downloaded && from <= next <= |w.log| && page == w.log[from..next]
    requires forall c: nat :: c in u <==> c in w.t.inbox || from < c <= from + |page|
    requires forall c: nat :: c in u ==>
               u[c] == if from < c <= from + |page| then InboxRow(page[c - from - 1], Waiting) else w.t.inbox[c]
    ensures Extended(w, w.(t := w.t.(inbox := u, downloaded := next)), from, next)
  {
  }

  lemma ExtendedQuiet(w: World, v: World, from: nat, next: nat)
    requires InboxIsLog(w) && Extended(w, v, from, next)
    ensures Quiet(w, v)
  {
    assert InboxIsLog(v);
    assert SamePlans(w.t, v.t);
    assert Forward(w.t, v.t);
    assert SameKnowledge(w, v);
  }

  lemma IngestQuiet(w: World, from: nat, next: nat)
    requires InboxIsLog(w) && from <= next <= |w.log|
    ensures Quiet(w, w.(t := Ingest(w.t, from, next, w.log[from..next])))
  {
    var page := w.log[from..next];
    if PageFits(w.t, from, next, page) && from == w.t.downloaded {
      hide *;
      IngestExtends(w, from, next);
      ExtendedQuiet(w, w.(t := Ingest(w.t, from, next, page)), from, next);
    }
  }

  lemma IngestKeeps(w: World, from: nat, next: nat)
    requires WorldOk(w) && from <= next <= |w.log|
    ensures WorldOk(w.(t := Ingest(w.t, from, next, w.log[from..next])))
  {
    hide *;
    Open(w);
    IngestQuiet(w, from, next);
    QuietStep(w, w.(t := Ingest(w.t, from, next, w.log[from..next])));
  }

  /** A page of the server's log is always taken: either it continues the inbox or it is an exact replay. */
  lemma LogPage(log: seq<Change>, from: nat, next: nat)
    requires LogOk(log) && from <= next <= |log| <= MAX_INT64
    ensures PageShape(from, next, log[from..next])
    ensures forall i :: 0 <= i < next - from ==>
              log[from..next][i].cursor == from + i + 1 && log[from..next][i] == log[from + i]
  {
    var page := log[from..next];
    hide LogOk, ValidChange;
    forall i | 0 <= i < |page|
      ensures page[i] == log[from + i] && page[i].cursor == from + i + 1 && ValidChange(page[i])
    {
      EntryAt(log, from + i);
    }
  }

  lemma LogReplays(w: World, from: nat, next: nat)
    requires InboxIsLog(w) && LogOk(w.log) && w.first <= from + 1 && from <= next <= w.t.downloaded
             && |w.log| <= MAX_INT64
    ensures Replays(w.t, w.log[from..next])
  {
    hide LogOk, PageShape;
    LogPage(w.log, from, next);
    var page := w.log[from..next];
    forall i | 0 <= i < |page|
      ensures page[i].cursor in w.t.inbox && w.t.inbox[page[i].cursor].change == page[i]
    {
      var c := from + i + 1;
      assert page[i] == w.log[c - 1] && page[i].cursor == c;
      assert w.first <= c <= w.t.downloaded;
    }
  }

  lemma IngestNeverFails(w: World, from: nat, next: nat)
    requires WorldOk(w) && w.first <= from + 1 && from < next <= |w.log| && |w.log| <= MAX_INT64
    requires from == w.t.downloaded || next <= w.t.downloaded
    ensures PageFits(w.t, from, next, w.log[from..next])
  {
    Open(w);
    hide PlansOk, AppliedPrefix, BaselinesKnown, LogOk, PageShape, WorldOk, Replays, InboxIsLog;
    LogPage(w.log, from, next);
    if next <= w.t.downloaded {
      LogReplays(w, from, next);
    }
  }

  // ---------------------------------------------------------------- starting plans

  /** Plan id is new or changed; the tables and every other plan are the same. */
  ghost predicate OnlyPlan(w: World, v: World, id: Uuid) {
    && v.log == w.log && v.own == w.own && v.first == w.first && id in v.t.plans
    && v.t.inbox == w.t.inbox && v.t.downloaded == w.t.downloaded && v.t.confirmed == w.t.confirmed
    && v.t.baselines == w.t.baselines
    && forall x :: x in v.t.plans && x != id ==>
         x in w.t.plans && v.t.plans[x] == w.t.plans[x] && (x in w.t.links) == (x in v.t.links)
             && (x in w.t.links ==> w.t.links[x] == v.t.links[x])
  }

  lemma OnlyPlanTables(w: World, v: World, id: Uuid)
    requires InboxIsLog(w) && OnlyPlan(w, v, id)
    ensures SameKnowledge(w, v) && InboxIsLog(v) && Forward(w.t, v.t) && v.first == w.first
  {
  }

  lemma OtherPlanKept(w: World, v: World, id: Uuid, x: Uuid)
    requires OnlyPlan(w, v, id) && x in v.t.plans && x != id && PlansOk(w) && InboxIsLog(w) && InboxIsLog(v)
    ensures PlanOk(v, x)
  {
    assert PlanOk(w, x);
    hide PlansOk, PlanOk, InboxIsLog;
    PlanCarried(w, v, x);
  }

  lemma OtherPlansKept(w: World, v: World, id: Uuid)
    requires OnlyPlan(w, v, id) && PlansOk(w) && InboxIsLog(w) && InboxIsLog(v) && id in v.t.plans && PlanOk(v, id)
    ensures PlansOk(v)
  {
    hide OnlyPlan, InboxIsLog, PlanOk;
    forall x | x in v.t.plans
      ensures PlanOk(v, x)
    {
      if x != id {
        OtherPlanKept(w, v, id, x);
      }
    }
  }

  lemma NewPlan(w: World, v: World, id: Uuid)
    requires WorldOk(w) && OnlyPlan(w, v, id) && id in v.t.plans && PlanOk(v, id)
    ensures WorldOk(v)
  {
    hide *;
    Open(w);
    OnlyPlanTables(w, v, id);
    KnowledgeKept(w, v);
    LogSame(w, v);
    OtherPlansKept(w, v, id);
    Close(v);
  }

  lemma {:induction false} PreparedSteps(baselines: map<Uuid, nat>, steps: seq<Change>, k: nat)
    requires k <= |steps|
    ensures |Prepare(baselines, steps, k)| == k
            && forall i :: 0 <= i < k ==> Prepare(baselines, steps, k)[i].change == steps[i]
  {
    if k > 0 {
      PreparedSteps(baselines, steps, k - 1);
    }
  }

  lemma OrderedPlanOk(w: World, id: Uuid, p: Plan, steps: seq<Change>)
    requires id !in w.t.links && p.from <= p.through <= w.t.downloaded <= |w.log| && steps == w.log[p.from..p.through]
    requires p.steps == Prepare(w.t.baselines, steps, |steps|)
    ensures PlanOk(w.(t := w.t.(plans := w.t.plans[id := p])), id)
  {
    PreparedSteps(w.t.baselines, steps, |steps|);
    hide Prepare;
  }

  lemma CreateOrderedKeeps(w: World, id: Uuid, through: nat)
    requires WorldOk(w) && w.t.confirmed <= through <= w.t.downloaded && id !in w.t.links && w.t.downloaded <= |w.log|
    ensures WorldOk(w.(t := CreateOrdered(w.t, id, w.t.confirmed, through, w.log[w.t.confirmed..through])))
  {
    hide WorldOk, Prepare, OrderedOk, PlanOk;
    var steps := w.log[w.t.confirmed..through];
    var v := w.(t := CreateOrdered(w.t, id, w.t.confirmed, through, steps));
    if OrderedOk(w.t, id, w.t.confirmed, through, steps) {
      var p := Plan(w.t.confirmed, through, Planned, Prepare(w.t.baselines, steps, |steps|));
      assert v == w.(t := w.t.(plans := w.t.plans[id := p]));
      OrderedPlanOk(w, id, p, steps);
      NewPlan(w, v, id);
    }
  }

  lemma LinkedPlanOk(w: World, intents: set<Uuid>, c: nat, id: Uuid)
    requires CreateLinked(w.t, intents, c, id) != w.t
    ensures var v := w.(t := CreateLinked(w.t, intents, c, id)); OnlyPlan(w, v, id) && id in v.t.plans && PlanOk(v, id)
  {
    hide SomeActive, ValidOperationId;
  }

  lemma CreateLinkedKeeps(w: World, intents: set<Uuid>, c: nat, id: Uuid)
    requires WorldOk(w)
    ensures WorldOk(w.(t := CreateLinked(w.t, intents, c, id)))
  {
    hide *;
    if CreateLinked(w.t, intents, c, id) != w.t {
      LinkedPlanOk(w, intents, c, id);
      NewPlan(w, w.(t := CreateLinked(w.t, intents, c, id)), id);
    }
  }

  lemma RetryPlanOk(w: World, intents: set<Uuid>, id: Uuid)
    requires PlansOk(w) && Retry(w.t, intents, id) != w.t
    ensures var v := w.(t := Retry(w.t, intents, id)); OnlyPlan(w, v, id) && id in v.t.plans && PlanOk(v, id)
  {
    assert PlanOk(w, id);
    hide PlansOk, SomeActive;
  }

  lemma RetryKeeps(w: World, intents: set<Uuid>, id: Uuid)
    requires WorldOk(w)
    ensures WorldOk(w.(t := Retry(w.t, intents, id)))
  {
    hide *;
    if Retry(w.t, intents, id) != w.t {
      Open(w);
      RetryPlanOk(w, intents, id);
      NewPlan(w, w.(t := Retry(w.t, intents, id)), id);
    }
  }

  // ---------------------------------------------------------------- completing plans

  function RaisedTo(w: World, o: Uuid, change: Change): nat {
    if o == change.obj then Max(Revision(w.t.baselines, o), change.revision) else Revision(w.t.baselines, o)
  }

  /** One more entry becomes known, and its object's baseline is raised to it. */
  lemma LearnOne(w: World, v: World, c: nat)
    requires LogOk(w.log) && BaselinesKnown(w) && w.log == v.log && 1 <= c <= |w.log|
    requires Known(v, c) && forall e :: 1 <= e <= |w.log| && e != c ==> Known(w, e) == Known(v, e)
    requires forall o :: Revision(v.t.baselines, o) == RaisedTo(w, o, w.log[c - 1])
    ensures BaselinesKnown(v)
  {
    hide Known, Revision, LogOk;
    forall o
      ensures Revision(v.t.baselines, o) == Top(v, o, |v.log|)
    {
      TopLearns(w, v, o, c, |w.log|);
    }
  }

  /** Row c becomes applied after every earlier row of its object. */
  lemma LearnPrefix(w: World, v: World, c: nat)
    requires AppliedPrefix(w) && w.log == v.log && 1 <= c <= |w.log|
    requires IsApplied(v.t, c) && forall e :: 1 <= e <= |w.log| && e != c ==> IsApplied(w.t, e) == IsApplied(v.t, e)
    requires forall e :: 1 <= e < c && w.log[e - 1].obj == w.log[c - 1].obj ==> IsApplied(w.t, e)
    ensures AppliedPrefix(v)
  {
    hide IsApplied;
  }

  /** What completing a linked plan changes before the frontier moves. */
  function Landed(t: Tables, id: Uuid): Tables
    requires LinkedCompletable(t, id)
  {
    var c, step := t.links[id], t.plans[id].steps[0];
    SetPlan(SetRow(t, c, Applied), id, Done).(baselines := t.baselines[step.change.obj := step.change.revision])
  }

  lemma LandedPredecessors(w: World, id: Uuid)
    requires InboxIsLog(w) && PlansOk(w) && LinkedCompletable(w.t, id)
    ensures var c := w.t.links[id];
            && 1 <= c <= |w.log| && w.t.plans[id].steps[0].change == w.log[c - 1]
            && forall e :: 1 <= e < c && w.log[e - 1].obj == w.log[c - 1].obj ==> IsApplied(w.t, e)
  {
    assert PlanOk(w, id);
    var c := w.t.links[id];
    forall e | 1 <= e < c && w.log[e - 1].obj == w.log[c - 1].obj
      ensures IsApplied(w.t, e)
    {
      if e >= w.first {
        assert w.t.inbox[e].change == w.log[e - 1];
      }
    }
  }

  lemma LandedRows(w: World, id: Uuid)
    requires InboxIsLog(w) && LinkedCompletable(w.t, id)
    ensures var v := w.(t := Landed(w.t, id));
            && InboxIsLog(v) && Forward(w.t, v.t) && SamePlans(w.t, v.t) && IsApplied(v.t, w.t.links[id])
            && forall e: nat :: e != w.t.links[id] ==> IsApplied(v.t, e) == IsApplied(w.t, e)
  {
    LandedInbox(w, id);
    hide InboxIsLog, Forward, IsApplied;
  }

  lemma LandedInbox(w: World, id: Uuid)
    requires InboxIsLog(w) && LinkedCompletable(w.t, id)
    ensures var v := w.(t := Landed(w.t, id));
            && InboxIsLog(v) && Forward(w.t, v.t) && IsApplied(v.t, w.t.links[id])
            && forall e: nat :: e != w.t.links[id] ==> IsApplied(v.t, e) == IsApplied(w.t, e)
  {
  }

  lemma LandedKeeps(w: World, id: Uuid)
    requires WorldOk(w) && LinkedCompletable(w.t, id)
    ensures WorldOk(w.(t := Landed(w.t, id)))
  {
    hide *;
    LandedBaselines(w, id);
    var v := w.(t := Landed(w.t, id));
    Open(w);
    LandedPredecessors(w, id);
    LandedRows(w, id);
    LandedLearns(w, v, w.t.links[id]);
    SameLog(w, v);
    PlansKept(w, v);
    Close(v);
  }

  lemma SameLog(w: World, v: World)
    requires w.log == v.log
    ensures w.log <= v.log
  {
  }

  lemma LandedBaselines(w: World, id: Uuid)
    requires LinkedCompletable(w.t, id)
    ensures var v := w.(t := Landed(w.t, id));
            v.log == w.log && v.own == w.own && v.first == w.first && id in w.t.links
            && forall o :: Revision(v.t.baselines, o) == RaisedTo(w, o, w.t.plans[id].steps[0].change)
  {
  }

  lemma LandedLearns(w: World, v: World, c: nat)
    requires LogOk(w.log) && AppliedPrefix(w) && BaselinesKnown(w) && w.log == v.log && w.own == v.own
             && 1 <= c <= |w.log|
    requires IsApplied(v.t, c) && forall e: nat :: e != c ==> IsApplied(v.t, e) == IsApplied(w.t, e)
    requires forall e :: 1 <= e < c && w.log[e - 1].obj == w.log[c - 1].obj ==> IsApplied(w.t, e)
    requires forall o :: Revision(v.t.baselines, o) == RaisedTo(w, o, w.log[c - 1])
    ensures AppliedPrefix(v) && BaselinesKnown(v)
  {
    hide IsApplied, LogOk, BaselinesKnown, AppliedPrefix, Revision, RaisedTo;
    LearnPrefix(w, v, c);
    LearnOne(w, v, c);
  }

  lemma CompleteLinkedKeeps(w: World, id: Uuid)
    requires WorldOk(w) && LinkedCompletable(w.t, id)
    ensures WorldOk(w.(t := CompleteLinked(w.t, id)))
  {
    LandedKeeps(w, id);
    AdvanceKeeps(w.(t := Landed(w.t, id)));
    assert CompleteLinked(w.t, id) == AdvanceConfirmed(Landed(w.t, id));
    hide *;
  }

  /** Confirming one more cursor and recording its revision. */
  function ConfirmOne(w: World, change: Change): World {
    var b := w.t.baselines;
    w.(t := w.t.(confirmed := w.t.confirmed + 1,
      baselines := if change.obj !in b || change.revision > b[change.obj] then b[change.obj := change.revision] else b))
  }

  lemma ConfirmOneKeeps(w: World)
    requires LogOk(w.log) && AppliedPrefix(w) && BaselinesKnown(w) && w.t.confirmed < |w.log|
    ensures var v := ConfirmOne(w, w.log[w.t.confirmed]); AppliedPrefix(v) && BaselinesKnown(v)
  {
    var c := w.t.confirmed + 1;
    var v := ConfirmOne(w, w.log[c - 1]);
    assert IsApplied(v.t, c) && forall e: nat :: 1 <= e && e != c ==> IsApplied(v.t, e) == IsApplied(w.t, e);
    assert forall e: nat :: 1 <= e < c ==> IsApplied(w.t, e);
    hide IsApplied, LogOk, BaselinesKnown, AppliedPrefix;
    LearnPrefix(w, v, c);
    LearnOne(w, v, c);
  }

  /** The world after confirming the first k steps of an ordered plan. */
  function Confirmed(w: World, steps: seq<PlanStep>, k: nat): World
    requires k <= |steps|
  {
    w.(t := w.t.(confirmed := w.t.confirmed + k, baselines := Raised(w.t.baselines, steps, k)))
  }

  lemma {:induction false} ConfirmedKeeps(w: World, steps: seq<PlanStep>, k: nat)
    requires LogOk(w.log) && AppliedPrefix(w) && BaselinesKnown(w)
    requires k <= |steps| && w.t.confirmed + |steps| <= |w.log|
    requires forall i :: 0 <= i < |steps| ==> steps[i].change == w.log[w.t.confirmed + i]
    ensures AppliedPrefix(Confirmed(w, steps, k)) && BaselinesKnown(Confirmed(w, steps, k))
  {
    hide *;
    if k == 0 {
      ConfirmedNone(w, steps);
    } else {
      ConfirmedKeeps(w, steps, k - 1);
      ConfirmedStep(w, steps, k);
      ConfirmOneKeeps(Confirmed(w, steps, k - 1));
    }
  }

  lemma ConfirmedNone(w: World, steps: seq<PlanStep>)
    ensures Confirmed(w, steps, 0) == w
  {
  }

  lemma ConfirmedStep(w: World, steps: seq<PlanStep>, k: nat)
    requires 0 < k <= |steps| && w.t.confirmed + |steps| <= |w.log|
    requires steps[k - 1].change == w.log[w.t.confirmed + (k - 1)]
    ensures var before := Confirmed(w, steps, k - 1);
            && before.log == w.log && before.t.confirmed == w.t.confirmed + k - 1
            && ConfirmOne(before, w.log[before.t.confirmed]) == Confirmed(w, steps, k)
  {
  }

  lemma CompleteOrderedRest(w: World, id: Uuid)
    requires InboxIsLog(w) && PlansOk(w) && OrderedCompletable(w.t, id)
    ensures var v, p := w.(t := CompleteOrdered(w.t, id)), w.t.plans[id];
            && InboxIsLog(v) && Forward(w.t, v.t) && SamePlans(w.t, v.t)
            && w.t.confirmed + |p.steps| <= |w.log| && p.through == w.t.confirmed + |p.steps|
            && forall i :: 0 <= i < |p.steps| ==> p.steps[i].change == w.log[w.t.confirmed + i]
  {
    assert PlanOk(w, id);
    hide Raised;
  }

  lemma CompleteOrderedKeeps(w: World, id: Uuid)
    requires WorldOk(w) && OrderedCompletable(w.t, id)
    ensures WorldOk(w.(t := CompleteOrdered(w.t, id)))
  {
    var v, p := w.(t := CompleteOrdered(w.t, id)), w.t.plans[id];
    Open(w);
    CompleteOrderedRest(w, id);
    hide WorldOk, InboxIsLog, PlansOk, LogOk, AppliedPrefix, BaselinesKnown, OrderedCompletable, SamePlans, Forward;
    ConfirmedKeeps(w, p.steps, |p.steps|);
    var u := Confirmed(w, p.steps, |p.steps|);
    assert u.t.inbox == v.t.inbox && u.t.confirmed == v.t.confirmed && u.t.baselines == v.t.baselines;
    KnowledgeAt(u, v);
    PlansKept(w, v);
    Close(v);
  }

  lemma KnowledgeAt(w: World, v: World)
    requires AppliedPrefix(w) && BaselinesKnown(w) && w.log == v.log && w.own == v.own
    requires w.t.inbox == v.t.inbox && w.t.confirmed == v.t.confirmed && w.t.baselines == v.t.baselines
    ensures AppliedPrefix(v) && BaselinesKnown(v)
  {
    assert forall c: nat :: IsApplied(w.t, c) == IsApplied(v.t, c);
    hide AppliedPrefix, BaselinesKnown, IsApplied;
    KnowledgeKept(w, v);
  }

  lemma CompleteKeeps(w: World, id: Uuid)
    requires WorldOk(w)
    ensures WorldOk(w.(t := Complete(w.t, id)))
  {
    hide WorldOk, CompleteLinked, CompleteOrdered, LinkedCompletable, OrderedCompletable;
    if LinkedCompletable(w.t, id) {
      CompleteLinkedKeeps(w, id);
    } else if OrderedCompletable(w.t, id) {
      CompleteOrderedKeeps(w, id);
    }
  }

  // ---------------------------------------------------------------- the log grows

  /** The next change of the server log. */
  predicate NextEntry(log: seq<Change>, change: Change) {
    change.cursor == |log| + 1 && ValidChange(change) && change.revision == Entries(log, change.obj, |log|) + 1
  }

  lemma {:induction false} EntriesPrefix(log: seq<Change>, change: Change, o: Uuid, n: nat)
    requires n <= |log|
    ensures Entries(log + [change], o, n) == Entries(log, o, n)
  {
    if n > 0 {
      EntriesPrefix(log, change, o, n - 1);
    }
  }

  lemma LogGrows(log: seq<Change>, change: Change)
    requires LogOk(log) && NextEntry(log, change)
    ensures LogOk(log + [change])
  {
    var all := log + [change];
    hide ValidChange, LogOk;
    forall i | 0 <= i < |all|
      ensures all[i].cursor == i + 1 && ValidChange(all[i]) && all[i].revision == Entries(all, all[i].obj, i) + 1
    {
      EntriesPrefix(log, change, all[i].obj, i);
      if i < |log| {
        EntryAt(log, i);
      }
    }
    LogClosed(all);
  }

  lemma LogClosed(log: seq<Change>)
    requires forall i :: 0 <= i < |log| ==>
               log[i].cursor == i + 1 && ValidChange(log[i]) && log[i].revision == Entries(log, log[i].obj, i) + 1
    ensures LogOk(log)
  {
  }

  /** The log has one more entry; the client's tables, apart from baselines, are the same. */
  ghost predicate Grown(w: World, v: World, change: Change) {
    && v.log == w.log + [change] && v.first == w.first && v.t == w.t.(baselines := v.t.baselines)
  }

  lemma GrownInbox(w: World, v: World, change: Change)
    requires InboxIsLog(w) && Grown(w, v, change)
    ensures InboxIsLog(v) && Forward(w.t, v.t) && SamePlans(w.t, v.t) && w.log <= v.log
    ensures !IsApplied(v.t, |w.log| + 1) && forall c: nat :: IsApplied(v.t, c) == IsApplied(w.t, c)
  {
  }

  lemma GrownPrefix(w: World, v: World, change: Change)
    requires AppliedPrefix(w) && Grown(w, v, change) && !IsApplied(v.t, |w.log| + 1)
    requires forall c: nat :: IsApplied(v.t, c) == IsApplied(w.t, c)
    ensures AppliedPrefix(v)
  {
    hide IsApplied;
  }

  lemma GrownParts(w: World, v: World, change: Change)
    requires WorldOk(w) && NextEntry(w.log, change) && Grown(w, v, change)
    ensures LogOk(v.log) && InboxIsLog(v) && AppliedPrefix(v) && PlansOk(v)
    ensures !IsApplied(v.t, |w.log| + 1) && forall c: nat :: IsApplied(v.t, c) == IsApplied(w.t, c)
  {
    assert v.log == w.log + [change] && v.first == w.first;
    hide *;
    Open(w);
    LogGrows(w.log, change);
    GrownInbox(w, v, change);
    GrownPrefix(w, v, change);
    PlansKept(w, v);
  }

  /** The server accepts a change: of another client, or an own one whose answer is not recorded yet. */
  lemma RemoteKeeps(w: World, change: Change)
    requires WorldOk(w) && NextEntry(w.log, change) && (|w.log| + 1) !in w.own
    ensures WorldOk(w.(log := w.log + [change]))
  {
    var v := w.(log := w.log + [change]);
    Open(w);
    assert Grown(w, v, change);
    hide *;
    GrownParts(w, v, change);
    RemoteBaselines(w, v, change);
    Close(v);
  }

  lemma RemoteBaselines(w: World, v: World, change: Change)
    requires BaselinesKnown(w) && v == w.(log := w.log + [change]) && (|w.log| + 1) !in w.own
             && !IsApplied(v.t, |w.log| + 1)
    ensures BaselinesKnown(v)
  {
    hide IsApplied;
    forall o
      ensures Revision(v.t.baselines, o) == Top(v, o, |v.log|)
    {
      TopSame(w, v, o, |w.log|);
    }
  }

  /** The client records the answer to an own operation: the server accepted it as entry c, perhaps long before. */
  function OwnRecorded(w: World, c: nat): World
    requires 1 <= c <= |w.log|
  {
    var change, b := w.log[c - 1], w.t.baselines;
    w.(own := w.own + {c},
       t := w.t.(baselines := if change.obj !in b || change.revision > b[change.obj] then
                   b[change.obj := change.revision] else b))
  }

  lemma OwnQuiet(w: World, c: nat)
    requires InboxIsLog(w) && 1 <= c <= |w.log|
    ensures var v := OwnRecorded(w, c);
            && v.log == w.log && v.first == w.first && InboxIsLog(v) && Forward(w.t, v.t) && SamePlans(w.t, v.t)
            && (forall e: nat :: IsApplied(v.t, e) == IsApplied(w.t, e))
            && Known(v, c) && (forall e :: 1 <= e <= |w.log| && e != c ==> Known(w, e) == Known(v, e))
            && forall o :: Revision(v.t.baselines, o) == RaisedTo(w, o, w.log[c - 1])
  {
  }

  lemma OwnPrefix(w: World, v: World)
    requires AppliedPrefix(w) && v.log == w.log && forall e: nat :: IsApplied(v.t, e) == IsApplied(w.t, e)
    ensures AppliedPrefix(v)
  {
    hide IsApplied;
  }

  lemma OwnKeeps(w: World, c: nat)
    requires WorldOk(w) && 1 <= c <= |w.log|
    ensures WorldOk(OwnRecorded(w, c))
  {
    hide *;
    var v := OwnRecorded(w, c);
    Open(w);
    OwnQuiet(w, c);
    OwnPrefix(w, v);
    LearnOne(w, v, c);
    SameLog(w, v);
    PlansKept(w, v);
    Close(v);
  }

  // ---------------------------------------------------------------- runs

  datatype Step =
    | Download(from: nat, next: nat)
    | PlanRange(id: Uuid, through: nat)
    | PlanAhead(intents: set<Uuid>, cursor: nat, id: Uuid)
    | BeginPlan(id: Uuid)
    | StepDone(id: Uuid, k: nat)
    | FinishPlan(id: Uuid)
    | AbandonPlan(id: Uuid)
    | RetryPlan(intents: set<Uuid>, id: Uuid)
    | MirrorConfirmed
    | AdvanceFrontier
    | OwnResult(cursor: nat)
    | ServerChange(change: Change)

  /** One transaction. Crashes fall between steps, so a run may stop anywhere and go on with any step. Pages and ordered
      plans carry what the server's log holds; an ordered plan follows the download of its range. The server accepts an
      own operation in one step and the client records the answer in another, and anything may come between them. */
  function Next(w: World, step: Step): World {
    match step
    case Download(from, next) => if from <= next <= |w.log| then w.(t := Ingest(w.t, from, next, w.log[from..next]))
      else w
    case PlanRange(id, through) =>
      if w.t.confirmed <= through <= w.t.downloaded <= |w.log| && id !in w.t.links
      then w.(t := CreateOrdered(w.t, id, w.t.confirmed, through, w.log[w.t.confirmed..through])) else w
    case PlanAhead(intents, cursor, id) => w.(t := CreateLinked(w.t, intents, cursor, id))
    case BeginPlan(id) => w.(t := Begin(w.t, id))
    case StepDone(id, k) => w.(t := MarkStep(w.t, id, k))
    case FinishPlan(id) => w.(t := Complete(w.t, id))
    case AbandonPlan(id) => w.(t := Abandon(w.t, id))
    case RetryPlan(intents, id) => w.(t := Retry(w.t, intents, id))
    case MirrorConfirmed => w.(t := Reconcile(w.t))
    case AdvanceFrontier => w.(t := AdvanceConfirmed(w.t))
    case OwnResult(cursor) => if 1 <= cursor <= |w.log| then OwnRecorded(w, cursor) else w
    case ServerChange(change) => if NextEntry(w.log, change) && (|w.log| + 1) !in w.own then
      w.(log := w.log + [change]) else w
  }

  lemma StepKeeps(w: World, step: Step)
    requires WorldOk(w)
    ensures WorldOk(Next(w, step))
  {
    hide WorldOk, Ingest, CreateOrdered, CreateLinked, Begin, MarkStep, Complete, Abandon, Retry, Reconcile,
         AdvanceConfirmed, OwnRecorded, NextEntry;
    match step {
      case Download(from, next) => if from <= next <= |w.log| { IngestKeeps(w, from, next); }
      case PlanRange(id, through) =>
        if w.t.confirmed <= through <= w.t.downloaded <= |w.log|
            && id !in w.t.links { CreateOrderedKeeps(w, id, through); }
      case PlanAhead(intents, cursor, id) => CreateLinkedKeeps(w, intents, cursor, id);
      case BeginPlan(id) => BeginKeeps(w, id);
      case StepDone(id, k) => MarkKeeps(w, id, k);
      case FinishPlan(id) => CompleteKeeps(w, id);
      case AbandonPlan(id) => AbandonKeeps(w, id);
      case RetryPlan(intents, id) => RetryKeeps(w, intents, id);
      case MirrorConfirmed => ReconcileKeeps(w);
      case AdvanceFrontier => AdvanceKeeps(w);
      case OwnResult(cursor) => if 1 <= cursor <= |w.log| { OwnKeeps(w, cursor); }
      case ServerChange(change) => if NextEntry(w.log, change) && (|w.log| + 1) !in w.own { RemoteKeeps(w, change); }
    }
  }

  function Run(w: World, steps: seq<Step>): World {
    if steps == [] then w else Next(Run(w, steps[..|steps| - 1]), steps[|steps| - 1])
  }

  /** Every run keeps: a gapless copy of the log, confirmed at or below downloaded, applied entries a prefix per object,
      and each baseline the newest revision the client has applied or made itself. */
  lemma {:induction false} RunKeeps(w: World, steps: seq<Step>)
    requires WorldOk(w)
    ensures WorldOk(Run(w, steps))
  {
    hide WorldOk, Next;
    if steps != [] {
      RunKeeps(w, steps[..|steps| - 1]);
      StepKeeps(Run(w, steps[..|steps| - 1]), steps[|steps| - 1]);
    }
  }

  // ---------------------------------------------------------------- baselines never fall

  lemma {:induction false} RaisedNeverLower(baselines: map<Uuid, nat>, steps: seq<PlanStep>, k: nat, o: Uuid)
    requires k <= |steps|
    ensures Revision(Raised(baselines, steps, k), o) >= Revision(baselines, o)
  {
    if k > 0 {
      RaisedNeverLower(baselines, steps, k - 1, o);
    }
  }

  lemma StepNeverLowers(w: World, step: Step, o: Uuid)
    requires WorldOk(w)
    ensures Revision(Next(w, step).t.baselines, o) >= Revision(w.t.baselines, o)
  {
    hide WorldOk, Raised, LinkedCompletable, NextEntry;
    match step {
      case FinishPlan(id) =>
        if LinkedCompletable(w.t, id) {
          LinkedNeverLowers(w, id, o);
        } else if OrderedCompletable(w.t, id) {
          RaisedNeverLower(w.t.baselines, w.t.plans[id].steps, |w.t.plans[id].steps|, o);
        }
      case _ =>
    }
  }

  lemma LinkedNeverLowers(w: World, id: Uuid, o: Uuid)
    requires LinkedCompletable(w.t, id)
    ensures Revision(CompleteLinked(w.t, id).baselines, o) >= Revision(w.t.baselines, o)
  {
  }

  lemma {:induction false} RunNeverLowers(w: World, steps: seq<Step>, o: Uuid)
    requires WorldOk(w)
    ensures Revision(Run(w, steps).t.baselines, o) >= Revision(w.t.baselines, o)
  {
    hide WorldOk, Next;
    if steps != [] {
      RunNeverLowers(w, steps[..|steps| - 1], o);
      RunKeeps(w, steps[..|steps| - 1]);
      StepNeverLowers(Run(w, steps[..|steps| - 1]), steps[|steps| - 1], o);
    }
  }

  // ---------------------------------------------------------------- agreement with in-order application

  /** The baselines after applying the first n entries strictly in cursor order. */
  function InOrder(log: seq<Change>, n: nat): map<Uuid, nat>
    requires n <= |log|
  {
    if n == 0 then map[] else InOrder(log, n - 1)[log[n - 1].obj := log[n - 1].revision]
  }

  lemma {:induction false} InOrderIs(log: seq<Change>, n: nat, o: Uuid)
    requires LogOk(log) && n <= |log|
    ensures Revision(InOrder(log, n), o) == Entries(log, o, n)
  {
    hide LogOk, ValidChange;
    if n > 0 {
      EntryAt(log, n - 1);
      InOrderIs(log, n - 1, o);
    }
  }

  lemma {:induction false} TopOfApplied(w: World, o: Uuid, n: nat)
    requires LogOk(w.log) && n <= |w.log| && forall c :: 1 <= c <= n ==> IsApplied(w.t, c)
    ensures Top(w, o, n) == Entries(w.log, o, n)
  {
    hide LogOk, ValidChange, IsApplied;
    if n > 0 {
      EntryAt(w.log, n - 1);
      TopOfApplied(w, o, n - 1);
    }
  }

  lemma {:induction false} TopBeyond(w: World, o: Uuid, n: nat, m: nat)
    requires n <= m <= |w.log| && forall c :: n < c <= m ==> !Known(w, c)
    ensures Top(w, o, m) == Top(w, o, n)
  {
    if n < m {
      TopBeyond(w, o, n, m - 1);
    }
  }

  /** Once everything downloaded is confirmed, the baselines are those of in-order application, whatever the order in
      fact was (own operations the server accepted but the client has not pulled yet are ahead of it). */
  lemma AgreesWithInOrder(w: World, o: Uuid)
    requires WorldOk(w) && w.t.confirmed == w.t.downloaded && forall c :: c in w.own ==> c <= w.t.downloaded
    ensures w.t.downloaded <= |w.log| && Revision(w.t.baselines, o) == Revision(InOrder(w.log, w.t.downloaded), o)
  {
    Open(w);
    var n := w.t.downloaded;
    assert forall c: nat :: c > n ==> !Known(w, c);
    hide AppliedPrefix, PlansOk, InboxIsLog, Revision;
    TopOfApplied(w, o, n);
    TopBeyond(w, o, n, |w.log|);
    InOrderIs(w.log, n, o);
  }

  // ---------------------------------------------------------------- ordered plans always fit

  lemma {:induction false} ReachedAtLeast(w: World, steps: seq<Change>, o: Uuid, k: nat)
    requires LogOk(w.log) && w.t.confirmed + |steps| <= |w.log| && k <= |steps|
             && steps == w.log[w.t.confirmed..w.t.confirmed + |steps|]
    requires Revision(w.t.baselines, o) >= Entries(w.log, o, w.t.confirmed)
    ensures Reached(w.t.baselines, steps, o, k) >= Entries(w.log, o, w.t.confirmed + k)
  {
    hide LogOk, ValidChange, Revision;
    if k > 0 {
      var i := w.t.confirmed + k - 1;
      EntryAt(w.log, i);
      assert steps[k - 1] == w.log[i];
      ReachedAtLeast(w, steps, o, k - 1);
    }
  }

  lemma ConfirmedInBaseline(w: World, o: Uuid)
    requires WorldOk(w)
    ensures w.t.confirmed <= |w.log| && Revision(w.t.baselines, o) >= Entries(w.log, o, w.t.confirmed)
  {
    Open(w);
    assert forall c :: 1 <= c <= w.t.confirmed ==> IsApplied(w.t, c);
    hide AppliedPrefix, PlansOk, LogOk, IsApplied, Revision;
    TopOfApplied(w, o, w.t.confirmed);
    TopGrows(w, o, w.t.confirmed, |w.log|);
  }

  /** The contiguity check of an ordered plan never fails on a page of the server's log. */
  lemma OrderedStepsFit(w: World, through: nat, k: nat)
    requires WorldOk(w) && w.t.confirmed <= through <= |w.log| && k < through - w.t.confirmed
    ensures StepFits(w.t.baselines, w.log[w.t.confirmed..through], k)
  {
    hide *;
    var n := w.t.confirmed;
    var steps := w.log[n..through];
    assert steps[k] == w.log[n + k] && n + |steps| == through;
    ConfirmedInBaseline(w, w.log[n + k].obj);
    Open(w);
    EntryAt(w.log, n + k);
    ReachedAtLeast(w, steps, w.log[n + k].obj, k);
    FitsWhen(w.t.baselines, steps, k);
  }

  lemma FitsWhen(baselines: map<Uuid, nat>, steps: seq<Change>, k: nat)
    requires k < |steps| && steps[k].revision <= Reached(baselines, steps, steps[k].obj, k) + 1
    ensures StepFits(baselines, steps, k)
  {
  }

  lemma {:induction false} TopGrows(w: World, o: Uuid, n: nat, m: nat)
    requires n <= m <= |w.log|
    ensures Top(w, o, n) <= Top(w, o, m)
  {
    if n < m {
      TopGrows(w, o, n, m - 1);
    }
  }
}
