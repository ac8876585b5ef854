/** The inbox: the downloaded server log, apply plans in and ahead of cursor order, and the two frontiers. */
module Inbox {
  import opened Ids
  import opened Naming
  import opened Optional
  import opened Outbox

  /** A change of the server log. */
  datatype Change = Change(
    cursor: nat, op: Uuid, obj: Uuid, otype: ObjectType, kind: Kind, revision: nat, parent: Option<Uuid>, name: string,
    blob: Hash,
    deleted: bool)

  predicate ValidChange(c: Change) {
    && 0 < c.cursor <= MAX_INT64 && ValidOperationId(c.op) && ValidObjectId(c.obj)
    && 0 < c.revision <= MAX_INT64 && (c.kind == Create <==> c.revision == 1)
    && (c.parent.Some? ==> ValidObjectId(c.parent.value))
    && ValidComponent(c.name)
    && |c.blob| == (if c.otype == Note then HASH_SIZE else 0)
    && c.deleted == (c.kind == Delete)
  }

  datatype RowState = Waiting | Applying | Applied

  datatype InboxRow = InboxRow(change: Change, state: RowState)

  datatype PlanStatus = Planned | Ongoing | Done | Dropped

  datatype PlanStep = PlanStep(change: Change, applied: bool)

  datatype Plan = Plan(from: nat, through: nat, status: PlanStatus, steps: seq<PlanStep>)

  /** `links` ties a plan to the one inbox row it applies ahead of order. */
  datatype Tables = Tables(
    inbox: map<nat, InboxRow>, downloaded: nat, confirmed: nat, baselines: map<Uuid, nat>, plans: map<Uuid, Plan>,
    links: map<Uuid, nat>)

  function Revision(baselines: map<Uuid, nat>, o: Uuid): nat {
    if o in baselines then baselines[o] else 0
  }

  predicate ActivePlan(p: Plan) {
    p.status == Planned || p.status == Ongoing
  }

  predicate SomeActive(t: Tables) {
    exists id :: id in t.plans && ActivePlan(t.plans[id])
  }

  /** At most one plan is being prepared or applied at a time. */
  ghost predicate OneActive(t: Tables) {
    forall a, b :: a in t.plans && b in t.plans && ActivePlan(t.plans[a]) && ActivePlan(t.plans[b]) ==> a == b
  }

  /** Nothing a plan has not completed shows: cursors and baselines stay, and so do all other plans. */
  ghost predicate NothingApplied(t: Tables, u: Tables, id: Uuid) {
    && u.downloaded == t.downloaded && u.confirmed == t.confirmed && u.baselines == t.baselines
    && forall x :: x != id ==> (x in u.plans <==> x in t.plans) && (x in t.plans ==> u.plans[x] == t.plans[x])
  }

  /** The plan applies the one waiting row it is linked to, the next revision of its object. */
  predicate PlansRow(t: Tables, id: Uuid) {
    && id in t.plans && id in t.links && t.links[id] in t.inbox && t.plans[id].status == Planned
    && var change := t.inbox[t.links[id]].change;
       && t.inbox[t.links[id]].state == Waiting && Revision(t.baselines, change.obj) + 1 == change.revision
       && t.plans[id].steps != [] && !t.plans[id].steps[0].applied
  }

  // ---------------------------------------------------------------- ingest

  predicate Contiguous(from: nat, page: seq<Change>) {
    forall i :: 0 <= i < |page| ==> page[i].cursor == from + i + 1
  }

  /** Shape of a page, checked before the store is touched. */
  predicate PageShape(from: nat, next: nat, page: seq<Change>) {
    && from <= MAX_INT64 && from <= next <= MAX_INT64 && |page| == next - from
    && Contiguous(from, page) && forall i :: 0 <= i < |page| ==> ValidChange(page[i])
  }

  predicate Replays(t: Tables, page: seq<Change>) {
    forall i :: 0 <= i < |page| ==> page[i].cursor in t.inbox && t.inbox[page[i].cursor].change == page[i]
  }

  predicate PageFits(t: Tables, from: nat, next: nat, page: seq<Change>) {
    PageShape(from, next, page)
        && (if from < t.downloaded then next <= t.downloaded && Replays(t, page) else from == t.downloaded)
  }

  function Inserted(inbox: map<nat, InboxRow>, page: seq<Change>): map<nat, InboxRow> {
    if page == [] then inbox
    else Inserted(inbox, page[..|page| - 1])[page[|page| - 1].cursor := InboxRow(page[|page| - 1], Waiting)]
  }

  function Ingest(t: Tables, from: nat, next: nat, page: seq<Change>): Tables {
    if PageFits(t, from, next, page) && from == t.downloaded then
      t.(inbox := Inserted(t.inbox, page), downloaded := next) else t
  }

  // ---------------------------------------------------------------- plans in cursor order

  /** The revision the first k steps bring o to. */
  function Reached(baselines: map<Uuid, nat>, steps: seq<Change>, o: Uuid, k: nat): nat
    requires k <= |steps|
  {
    if k == 0 then Revision(baselines, o)
    else
      var before := Reached(baselines, steps, o, k - 1);
      if steps[k - 1].obj == o && steps[k - 1].revision > before then steps[k - 1].revision else before
  }

  /** Step k is either already behind its object's projected revision or exactly the next one. */
  predicate StepFits(baselines: map<Uuid, nat>, steps: seq<Change>, k: nat)
    requires k < |steps|
  {
    steps[k].revision <= Reached(baselines, steps, steps[k].obj, k) + 1
  }

  function Prepare(baselines: map<Uuid, nat>, steps: seq<Change>, k: nat): seq<PlanStep>
    requires k <= |steps|
  {
    if k == 0 then []
    else
      Prepare(baselines, steps, k - 1)
      + [PlanStep(steps[k - 1], steps[k - 1].revision <= Reached(baselines, steps, steps[k - 1].obj, k - 1))]
  }

  predicate OrderedOk(t: Tables, id: Uuid, from: nat, through: nat, steps: seq<Change>) {
    && ValidOperationId(id) && from <= through <= MAX_INT64 && t.confirmed == from
    && id !in t.plans && !SomeActive(t)
    && |steps| == through - from && steps != [] && Contiguous(from, steps)
    && (forall k :: 0 <= k < |steps| ==> ValidChange(steps[k]))
    && (forall k :: 0 <= k < |steps| ==> StepFits(t.baselines, steps, k))
  }

  function CreateOrdered(t: Tables, id: Uuid, from: nat, through: nat, steps: seq<Change>): Tables {
    if OrderedOk(t, id, from, through, steps) then
      t.(plans := t.plans[id := Plan(from, through, Planned, Prepare(t.baselines, steps, |steps|))])
    else t
  }

  // ---------------------------------------------------------------- plans ahead of order

  predicate NoEarlierOpen(t: Tables, c: nat, o: Uuid) {
    forall e :: e in t.inbox && e < c && t.inbox[e].change.obj == o ==> t.inbox[e].state == Applied
  }

  /** A waiting note update or delete whose predecessor is the baseline and whose object has nothing open, here or
      locally. */
  predicate Eligible(t: Tables, intents: set<Uuid>, c: nat) {
    && c in t.inbox
    && var change := t.inbox[c].change;
       && t.inbox[c].state == Waiting && change.otype == Note && (change.kind == Update || change.kind == Delete)
       && change.obj in t.baselines && t.baselines[change.obj] + 1 == change.revision
       && NoEarlierOpen(t, c, change.obj) && change.obj !in intents
  }

  function CreateLinked(t: Tables, intents: set<Uuid>, c: nat, id: Uuid): Tables {
    if 0 < c && ValidOperationId(id) && Eligible(t, intents, c) && !SomeActive(t) && id !in t.plans
        && c !in t.links.Values then
      t.(plans := t.plans[id := Plan(c - 1, c, Planned, [PlanStep(t.inbox[c].change, false)])],
         links := t.links[id := c])
    else t
  }

  function SetRow(t: Tables, c: nat, state: RowState): Tables
    requires c in t.inbox
  {
    t.(inbox := t.inbox[c := t.inbox[c].(state := state)])
  }

  function SetPlan(t: Tables, id: Uuid, status: PlanStatus): Tables
    requires id in t.plans
  {
    t.(plans := t.plans[id := t.plans[id].(status := status)])
  }

  function Begin(t: Tables, id: Uuid): Tables {
    if id !in t.plans || t.plans[id].status != Planned then t
    else if id in t.links then
      var c := t.links[id];
      if c !in t.inbox || t.inbox[c].state == Applied then t
      else SetPlan(SetRow(t, c, Applying), id, Ongoing)
    else SetPlan(t, id, Ongoing)
  }

  function MarkStep(t: Tables, id: Uuid, k: nat): Tables {
    if id in t.plans && t.plans[id].status == Ongoing && k < |t.plans[id].steps| then
      t.(plans := t.plans[id := t.plans[id].(steps := t.plans[id].steps[k := t.plans[id].steps[k].(applied := true)])])
    else t
  }

  function Abandon(t: Tables, id: Uuid): Tables {
    if id in t.plans && id in t.links && t.plans[id].status == Planned && |t.plans[id].steps| == 1
        && !t.plans[id].steps[0].applied
       && t.links[id] in t.inbox && t.inbox[t.links[id]].state == Waiting
    then SetPlan(t, id, Dropped) else t
  }

  predicate RetryOk(t: Tables, intents: set<Uuid>, id: Uuid) {
    && id in t.plans && id in t.links && t.plans[id].status == Dropped && t.links[id] in t.inbox
    && !SomeActive(t)
    && var c := t.links[id];
       var change := t.inbox[c].change;
       && t.inbox[c].state == Waiting && t.plans[id].steps != [] && !t.plans[id].steps[0].applied
       && change.obj in t.baselines && t.baselines[change.obj] + 1 == change.revision
       && NoEarlierOpen(t, c, change.obj) && change.obj !in intents
  }

  function Retry(t: Tables, intents: set<Uuid>, id: Uuid): Tables {
    if RetryOk(t, intents, id) then SetPlan(t, id, Planned) else t
  }

  // ---------------------------------------------------------------- completion and the frontier

  /** The last cursor of the applied stretch that starts behind `frontier`. */
  function Frontier(inbox: map<nat, InboxRow>, frontier: nat, downloaded: nat): nat
    decreases downloaded - frontier
  {
    if frontier < downloaded && frontier + 1 in inbox && inbox[frontier + 1].state == Applied
    then Frontier(inbox, frontier + 1, downloaded) else frontier
  }

  function AdvanceConfirmed(t: Tables): Tables {
    t.(confirmed := Frontier(t.inbox, t.confirmed, t.downloaded))
  }

  predicate LinkedCompletable(t: Tables, id: Uuid) {
    && id in t.plans && id in t.links && t.plans[id].status == Ongoing && t.links[id] in t.inbox
    && |t.plans[id].steps| == 1
    && var c, step := t.links[id], t.plans[id].steps[0];
       && t.inbox[c].state == Applying && step.applied && step.change.cursor == c && step.change.revision >= 2
       && step.change.obj in t.baselines && t.baselines[step.change.obj] + 1 == step.change.revision
  }

  function CompleteLinked(t: Tables, id: Uuid): Tables
    requires LinkedCompletable(t, id)
  {
    var c, step := t.links[id], t.plans[id].steps[0];
    AdvanceConfirmed(SetPlan(SetRow(t, c, Applied), id,
                             Done).(baselines := t.baselines[step.change.obj := step.change.revision]))
  }

  /** Baselines after recording the first k steps: never lowered. */
  function Raised(baselines: map<Uuid, nat>, steps: seq<PlanStep>, k: nat): map<Uuid, nat>
    requires k <= |steps|
  {
    if k == 0 then baselines
    else
      var before, c := Raised(baselines, steps, k - 1), steps[k - 1].change;
      if c.obj !in before || c.revision > before[c.obj] then before[c.obj := c.revision] else before
  }

  predicate OrderedCompletable(t: Tables, id: Uuid) {
    && id in t.plans && id !in t.links && t.plans[id].status == Ongoing
    && (forall k :: 0 <= k < |t.plans[id].steps| ==> t.plans[id].steps[k].applied)
    && t.confirmed == t.plans[id].from
  }

  function CompleteOrdered(t: Tables, id: Uuid): Tables
    requires OrderedCompletable(t, id)
  {
    var p := t.plans[id];
    SetPlan(t, id, Done).(baselines := Raised(t.baselines, p.steps, |p.steps|), confirmed := p.through)
  }

  function Complete(t: Tables, id: Uuid): Tables {
    if LinkedCompletable(t, id) then CompleteLinked(t, id)
    else if OrderedCompletable(t, id) then CompleteOrdered(t, id)
    else t
  }

  /** Rows at or below the confirmed cursor are marked applied. */
  function Reconciled(inbox: map<nat, InboxRow>, confirmed: nat): map<nat, InboxRow> {
    map c | c in inbox :: if c <= confirmed then inbox[c].(state := Applied) else inbox[c]
  }

  /** The stored rows form one range that ends at the downloaded cursor. */
  predicate Gapless(t: Tables) {
    t.confirmed <= t.downloaded
        && forall c :: c in t.inbox ==> c <= t.downloaded && (c < t.downloaded ==> c + 1 in t.inbox)
  }

  function Reconcile(t: Tables): Tables {
    if t.inbox == map[] then (if t.downloaded < t.confirmed then t.(downloaded := t.confirmed) else t)
    else if Gapless(t) then t.(inbox := Reconciled(t.inbox, t.confirmed))
    else t
  }
}
