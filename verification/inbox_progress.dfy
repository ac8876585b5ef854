/** The inbox gets on: from wherever a run without an active plan has led, the client can catch up with the server. */
module InboxProgress {
  import opened Ids
  import opened Outbox
  import opened Inbox
  import opened InboxSafety

  lemma RunLast(w: World, steps: seq<Step>, step: Step)
    ensures Run(w, steps + [step]) == Next(Run(w, steps), step)
  {
    assert (steps + [step])[..|steps + [step]| - 1] == steps;
    hide Next;
  }

  lemma RunNone(w: World)
    ensures Run(w, []) == w
  {
  }

  /** A plan id that was never used. */
  predicate Unused(t: Tables, id: Uuid) {
    ValidOperationId(id) && id !in t.plans && id !in t.links
  }

  // ---------------------------------------------------------------- downloading

  /** The whole log is downloaded; nothing else changed. */
  ghost predicate Caught(w: World, v: World) {
    && v == w.(t := w.t.(inbox := v.t.inbox, downloaded := |w.log|)) && WorldOk(v)
  }

  lemma DownloadAll(w: World)
    requires WorldOk(w) && |w.log| <= MAX_INT64
    ensures Caught(w, Next(w, Download(w.t.downloaded, |w.log|)))
  {
    var from := w.t.downloaded;
    assert w.first <= from + 1 && from <= |w.log|;
    var page := w.log[from..];
    assert w.log[from..|w.log|] == page;
    hide WorldOk, Inserted;
    if from < |w.log| {
      IngestNeverFails(w, from, |w.log|);
    } else {
      assert page == [];
      EmptyPage(w.t, from, page);
    }
    StepKeeps(w, Download(from, |w.log|));
    hide PageFits;
  }

  lemma EmptyPage(t: Tables, from: nat, page: seq<Change>)
    requires page == [] && from == t.downloaded && from <= MAX_INT64
    ensures PageFits(t, from, from, page) && Inserted(t.inbox, page) == t.inbox
  {
  }

  // ---------------------------------------------------------------- a plan in cursor order

  lemma {:induction false} PreparedLength(baselines: map<Uuid, nat>, steps: seq<Change>, k: nat)
    requires k <= |steps|
    ensures |Prepare(baselines, steps, k)| == k
  {
    if k > 0 {
      PreparedLength(baselines, steps, k - 1);
    }
  }

  lemma RangeValid(log: seq<Change>, from: nat, through: nat)
    requires LogOk(log) && from <= through <= |log|
    ensures Contiguous(from, log[from..through])
    ensures forall k :: 0 <= k < through - from ==> ValidChange(log[from..through][k])
  {
    forall k | 0 <= k < through - from
      ensures log[from..through][k].cursor == from + k + 1 && ValidChange(log[from..through][k])
    {
      EntryAt(log, from + k);
    }
    hide LogOk, ValidChange;
  }

  /** An ordered plan for everything downloaded is taken, if no plan is active. */
  lemma PlanAll(w: World, id: Uuid)
    requires WorldOk(w) && !SomeActive(w.t) && Unused(w.t, id) && w.t.confirmed < w.t.downloaded <= MAX_INT64
    ensures var steps := w.log[w.t.confirmed..w.t.downloaded];
            && w.t.downloaded <= |w.log|
            && Next(w, PlanRange(id, w.t.downloaded))
               == w.(t := w.t.(plans := w.t.plans[id := Plan(w.t.confirmed, w.t.downloaded, Planned,
                                                             Prepare(w.t.baselines, steps, |steps|))]))
            && |Prepare(w.t.baselines, steps, |steps|)| == w.t.downloaded - w.t.confirmed
  {
    assert LogOk(w.log) && w.t.downloaded <= |w.log|;
    var from, through := w.t.confirmed, w.t.downloaded;
    var steps := w.log[from..through];
    hide WorldOk, LogOk, SomeActive, ValidOperationId, ValidChange, Prepare, StepFits;
    RangeValid(w.log, from, through);
    PreparedLength(w.t.baselines, steps, |steps|);
    forall k | 0 <= k < |steps|
      ensures StepFits(w.t.baselines, steps, k)
    {
      OrderedStepsFit(w, through, k);
    }
    assert OrderedOk(w.t, id, from, through, steps);
  }

  /** The plan with its first n steps applied. */
  function Marked(p: Plan, n: nat): Plan
    requires n <= |p.steps|
  {
    p.(steps := seq(|p.steps|, k requires 0 <= k < |p.steps| =>
      if k < n then p.steps[k].(applied := true) else p.steps[k]))
  }

  function WithPlan(w: World, id: Uuid, p: Plan): World {
    w.(t := w.t.(plans := w.t.plans[id := p]))
  }

  lemma BeginOrdered(w: World, id: Uuid, p: Plan)
    requires id !in w.t.links && p.status == Planned
    ensures Next(WithPlan(w, id, p), BeginPlan(id)) == WithPlan(w, id, p.(status := Ongoing))
  {
    assert WithPlan(w, id, p).t.plans[id := p.(status := Ongoing)] == w.t.plans[id := p.(status := Ongoing)];
  }

  lemma MarkOne(w: World, id: Uuid, p: Plan, n: nat)
    requires p.status == Ongoing && n < |p.steps|
    ensures Next(WithPlan(w, id, Marked(p, n)), StepDone(id, n)) == WithPlan(w, id, Marked(p, n + 1))
  {
    assert Marked(p, n).steps[n := Marked(p, n).steps[n].(applied := true)] == Marked(p, n + 1).steps;
    assert WithPlan(w, id, Marked(p, n)).t.plans[id := Marked(p, n + 1)] == w.t.plans[id := Marked(p, n + 1)];
  }

  lemma MarkNone(p: Plan)
    ensures Marked(p, 0) == p
  {
    assert Marked(p, 0).steps == p.steps;
  }

  /** All steps are marked, one after another. */
  lemma {:induction false} MarkAll(w: World, v: World, before: seq<Step>, id: Uuid, p: Plan, n: nat)
    returns (steps: seq<Step>)
    requires Run(w, before) == WithPlan(v, id, p) && p.status == Ongoing && n <= |p.steps|
    ensures Run(w, steps) == WithPlan(v, id, Marked(p, n))
  {
    if n == 0 {
      MarkNone(p);
      steps := before;
    } else {
      var most := MarkAll(w, v, before, id, p, n - 1);
      steps := most + [StepDone(id, n - 1)];
      hide *;
      RunLast(w, most, StepDone(id, n - 1));
      MarkOne(v, id, p, n - 1);
    }
  }

  /** With every step marked the plan completes. */
  lemma FinishOrdered(w: World, id: Uuid, p: Plan)
    requires id !in w.t.links && p.status == Ongoing && p.from == w.t.confirmed
    ensures var v := Next(WithPlan(w, id, Marked(p, |p.steps|)), FinishPlan(id));
            && v.log == w.log && v.own == w.own
            && v.t.confirmed == p.through && v.t.downloaded == w.t.downloaded && v.t.inbox == w.t.inbox
            && v.t.links == w.t.links && v.t.plans == w.t.plans[id := Marked(p, |p.steps|).(status := Done)]
  {
    var u := WithPlan(w, id, Marked(p, |p.steps|));
    assert OrderedCompletable(u.t, id);
    assert !LinkedCompletable(u.t, id);
    hide Raised;
    assert u.t.plans[id := Marked(p, |p.steps|).(status := Done)]
           == w.t.plans[id := Marked(p, |p.steps|).(status := Done)];
  }

  /** Begun, marked and finished, an ordered plan at the confirmed cursor moves it to the plan's end. */
  lemma CarryOut(w: World, v: World, before: seq<Step>, id: Uuid, p: Plan) returns (steps: seq<Step>)
    requires Run(w, before) == WithPlan(v, id, p) && id !in v.t.links && (p.status == Planned || p.status == Ongoing)
    requires p.from == v.t.confirmed
    ensures var u := Run(w, steps);
            && u.log == v.log && u.own == v.own && u.t.links == v.t.links
            && u.t.confirmed == p.through && u.t.downloaded == v.t.downloaded
            && id in u.t.plans && u.t.plans == v.t.plans[id := u.t.plans[id]] && u.t.plans[id].status == Done
  {
    var q, begun := p.(status := Ongoing), before;
    if p.status == Planned {
      begun := before + [BeginPlan(id)];
      RunLast(w, before, BeginPlan(id));
      BeginOrdered(v, id, p);
    }
    assert q == p || p.status == Planned;
    hide *;
    var marked := MarkAll(w, v, begun, id, q, |q.steps|);
    steps := marked + [FinishPlan(id)];
    RunLast(w, marked, FinishPlan(id));
    FinishOrdered(v, id, q);
  }

  lemma NoneActive(t: Tables, u: Tables, id: Uuid)
    requires id in u.plans && u.plans == t.plans[id := u.plans[id]] && u.plans[id].status == Done
    requires forall x :: x in t.plans && x != id ==> !ActivePlan(t.plans[x])
    ensures !SomeActive(u)
  {
  }

  /** From any state a run can lead to, without an active plan: some run of the client alone downloads the rest of the
      server's log and confirms all of it, and no plan is left active. */
  lemma CatchUp(w: World, id: Uuid) returns (steps: seq<Step>)
    requires WorldOk(w) && !SomeActive(w.t) && Unused(w.t, id) && |w.log| <= MAX_INT64
    ensures var v := Run(w, steps);
            && WorldOk(v) && v.log == w.log && v.own == w.own && !SomeActive(v.t)
            && v.t.confirmed == v.t.downloaded == |w.log|
  {
    var v := Next(w, Download(w.t.downloaded, |w.log|));
    DownloadAll(w);
    steps := [Download(w.t.downloaded, |w.log|)];
    assert [] + steps == steps;
    RunLast(w, [], Download(w.t.downloaded, |w.log|));
    RunNone(w);
    assert v.t.plans == w.t.plans && v.t.confirmed == w.t.confirmed && v.t.links == w.t.links;
    assert v.t.confirmed <= v.t.downloaded;
    hide WorldOk, Next, Run, ValidOperationId;
    if v.t.confirmed < v.t.downloaded {
      var range := v.log[v.t.confirmed..v.t.downloaded];
      var p := Plan(v.t.confirmed, v.t.downloaded, Planned, Prepare(v.t.baselines, range, |range|));
      PlanAll(v, id);
      RunLast(w, steps, PlanRange(id, v.t.downloaded));
      steps := CarryOut(w, v, steps + [PlanRange(id, v.t.downloaded)], id, p);
      NoneActive(v.t, Run(w, steps).t, id);
    }
    RunKeeps(w, steps);
  }

  // ---------------------------------------------------------------- a plan ahead of order

  /** The linked plan's row is where the plan's status says, and holds the next revision of its object. */
  predicate RowNext(t: Tables, id: Uuid, p: Plan) {
    && id in t.links && t.links[id] in t.inbox && |p.steps| == 1
    && var c := t.links[id];
       var change := t.inbox[c].change;
       && p.steps[0].change == change && change.cursor == c && change.revision >= 2
       && change.obj in t.baselines && t.baselines[change.obj] + 1 == change.revision
       && (p.status == Planned ==> t.inbox[c].state != Applied)
       && (p.status == Ongoing ==> t.inbox[c].state == Applying)
  }

  lemma BeginLinked(w: World, id: Uuid, p: Plan)
    requires RowNext(w.t, id, p) && p.status == Planned
    ensures var c := w.t.links[id];
            var v := w.(t := SetRow(w.t, c, Applying));
            && Next(WithPlan(w, id, p), BeginPlan(id)) == WithPlan(v, id, p.(status := Ongoing))
            && RowNext(v.t, id, p.(status := Ongoing)) && v.t.plans == w.t.plans && v.t.links == w.t.links
  {
    var v := w.(t := SetRow(w.t, w.t.links[id], Applying));
    assert SetRow(WithPlan(w, id, p).t, w.t.links[id], Applying).plans[id := p.(status := Ongoing)]
        == v.t.plans[id := p.(status := Ongoing)];
  }

  /** What completing the linked plan comes to. */
  ghost predicate Landed(w: World, v: World, id: Uuid, p: Plan)
    requires RowNext(w.t, id, p)
  {
    var c := w.t.links[id];
    && v.log == w.log && v.own == w.own && v.t.links == w.t.links && v.t.downloaded == w.t.downloaded
    && v.t.confirmed >= w.t.confirmed && c in v.t.inbox && v.t.inbox[c].state == Applied
    && v.t.baselines == w.t.baselines[w.t.inbox[c].change.obj := w.t.inbox[c].change.revision]
    && v.t.plans == w.t.plans[id := Marked(p, |p.steps|).(status := Done)]
  }

  lemma FrontierAhead(inbox: map<nat, InboxRow>, frontier: nat, downloaded: nat)
    ensures Frontier(inbox, frontier, downloaded) >= frontier
    decreases downloaded - frontier
  {
  }

  lemma FinishLinked(w: World, id: Uuid, p: Plan)
    requires RowNext(w.t, id, p) && p.status == Ongoing
    ensures Landed(w, Next(WithPlan(w, id, Marked(p, |p.steps|)), FinishPlan(id)), id, p)
  {
    var u := WithPlan(w, id, Marked(p, |p.steps|));
    var c := w.t.links[id];
    assert LinkedCompletable(u.t, id);
    FrontierAhead(w.t.inbox[c := w.t.inbox[c].(state := Applied)], w.t.confirmed, w.t.downloaded);
    hide Frontier;
    assert u.t.plans[id := Marked(p, |p.steps|).(status := Done)]
           == w.t.plans[id := Marked(p, |p.steps|).(status := Done)];
  }

  /** Begun, marked and finished, a plan ahead of order applies its row and raises its object's baseline to it. */
  lemma CarryOutLinked(w: World, v: World, before: seq<Step>, id: Uuid, p: Plan) returns (steps: seq<Step>)
    requires Run(w, before) == WithPlan(v, id, p) && RowNext(v.t, id, p) && (p.status == Planned || p.status == Ongoing)
    ensures var u := Run(w, steps);
            && u.log == v.log && u.own == v.own && u.t.links == v.t.links && u.t.downloaded == v.t.downloaded
            && u.t.confirmed >= v.t.confirmed && v.t.links[id] in u.t.inbox && u.t.inbox[v.t.links[id]].state == Applied
            && u.t.baselines == v.t.baselines[p.steps[0].change.obj := p.steps[0].change.revision]
            && id in u.t.plans && u.t.plans == v.t.plans[id := u.t.plans[id]] && u.t.plans[id].status == Done
  {
    var q, begun, x := p.(status := Ongoing), before, v;
    if p.status == Planned {
      begun, x := before + [BeginPlan(id)], v.(t := SetRow(v.t, v.t.links[id], Applying));
      RunLast(w, before, BeginPlan(id));
      BeginLinked(v, id, p);
    }
    assert q == p || p.status == Planned;
    assert x.t.inbox[v.t.links[id]].change == v.t.inbox[v.t.links[id]].change && x.t.baselines == v.t.baselines
        && x.t.plans == v.t.plans && x.t.links == v.t.links;
    assert p.steps[0].change == v.t.inbox[v.t.links[id]].change;
    hide RowNext, Run, Next, Marked, WithPlan;
    var marked := MarkAll(w, x, begun, id, q, |q.steps|);
    steps := marked + [FinishPlan(id)];
    RunLast(w, marked, FinishPlan(id));
    FinishLinked(x, id, q);
    MarkedStatus(q);
  }

  lemma MarkedStatus(p: Plan)
    ensures Marked(p, |p.steps|).(status := Done).status == Done
  {
  }

  /** A waiting note update or delete, the next revision of an object about which nothing earlier and nothing local is
      open. */
  predicate MayGoAhead(t: Tables, intents: set<Uuid>, c: nat) {
    && c in t.inbox && t.inbox[c].state == Waiting && c !in t.links.Values
    && var change := t.inbox[c].change;
       && change.otype == Note && (change.kind == Update || change.kind == Delete) && change.obj !in intents
       && change.obj in t.baselines && t.baselines[change.obj] + 1 == change.revision
       && NoEarlierOpen(t, c, change.obj)
  }

  lemma RowIsEntry(w: World, c: nat)
    requires WorldOk(w) && c in w.t.inbox
    ensures var change := w.t.inbox[c].change;
            c > 0 && change.cursor == c && (change.kind == Update || change.kind == Delete ==> change.revision >= 2)
  {
    assert w.t.inbox[c].change == w.log[c - 1] && 1 <= c <= |w.log| && LogOk(w.log);
    EntryAt(w.log, c - 1);
    hide WorldOk, LogOk, ValidOperationId;
  }

  lemma PlannedAhead(w: World, intents: set<Uuid>, c: nat, id: Uuid)
    requires WorldOk(w) && !SomeActive(w.t) && Unused(w.t, id) && MayGoAhead(w.t, intents, c)
    ensures var p := Plan(c as int - 1, c, Planned, [PlanStep(w.t.inbox[c].change, false)]);
            var v := w.(t := w.t.(links := w.t.links[id := c]));
            c > 0 && Next(w, PlanAhead(intents, c, id)) == WithPlan(v, id, p) && RowNext(v.t, id, p)
  {
    RowIsEntry(w, c);
    hide WorldOk, SomeActive, ValidOperationId, NoEarlierOpen;
  }

  /** A waiting row that may be applied ahead of order can be: planned, begun, marked and finished it is applied. */
  lemma ApplyAhead(w: World, intents: set<Uuid>, c: nat, id: Uuid) returns (steps: seq<Step>)
    requires WorldOk(w) && !SomeActive(w.t) && Unused(w.t, id) && MayGoAhead(w.t, intents, c)
    ensures var v := Run(w, steps);
            && WorldOk(v) && c in v.t.inbox && v.t.inbox[c].state == Applied && !SomeActive(v.t)
            && v.t.baselines == w.t.baselines[w.t.inbox[c].change.obj := w.t.inbox[c].change.revision]
  {
    var change := w.t.inbox[c].change;
    RowIsEntry(w, c);
    var p := Plan(c - 1, c, Planned, [PlanStep(change, false)]);
    var v := w.(t := w.t.(links := w.t.links[id := c]));
    steps := [PlanAhead(intents, c, id)];
    assert [] + steps == steps;
    assert forall x :: x in v.t.plans ==> !ActivePlan(v.t.plans[x]);
    hide *;
    PlannedAhead(w, intents, c, id);
    RunLast(w, [], PlanAhead(intents, c, id));
    RunNone(w);
    steps := CarryOutLinked(w, v, steps, id, p);
    NoneActive(v.t, Run(w, steps).t, id);
    RunKeeps(w, steps);
  }

  /** Given up before it was started, a plan leaves room for others; taken up again, it is what it was. */
  lemma RetryRestores(t: Tables, intents: set<Uuid>, id: Uuid)
    requires id in t.plans && id in t.links && t.plans[id].status == Planned && OneActive(t)
    requires |t.plans[id].steps| == 1 && !t.plans[id].steps[0].applied
    requires t.links[id] in t.inbox && t.inbox[t.links[id]].state == Waiting
    requires var change := t.inbox[t.links[id]].change;
             && change.obj !in intents && change.obj in t.baselines && t.baselines[change.obj] + 1 == change.revision
             && NoEarlierOpen(t, t.links[id], change.obj)
    ensures !SomeActive(Abandon(t, id)) && Retry(Abandon(t, id), intents, id) == t
  {
    var u := Abandon(t, id);
    assert u.plans == t.plans[id := t.plans[id].(status := Dropped)];
    assert !SomeActive(u);
    assert NoEarlierOpen(u, t.links[id], t.inbox[t.links[id]].change.obj);
    hide SomeActive, NoEarlierOpen, OneActive;
    assert u.plans[id := u.plans[id].(status := Planned)] == t.plans;
  }

  // ---------------------------------------------------------------- from an active plan

  /** An active plan that can be carried on: a linked one whose row is where it belongs, an ordered one that starts at
      the confirmed cursor. */
  predicate Resumable(t: Tables, id: Uuid)
    requires id in t.plans
  {
    ActivePlan(t.plans[id]) && if id in t.links then RowNext(t, id, t.plans[id]) else t.plans[id].from == t.confirmed
  }

  lemma Resume(w: World, active: Uuid) returns (steps: seq<Step>)
    requires WorldOk(w) && active in w.t.plans && Resumable(w.t, active) && OneActive(w.t)
    ensures var v := Run(w, steps);
            && WorldOk(v) && v.log == w.log && v.own == w.own && v.t.links == w.t.links && !SomeActive(v.t)
            && v.t.plans.Keys == w.t.plans.Keys
  {
    var p := w.t.plans[active];
    assert w.t.plans == w.t.plans[active := p];
    RunNone(w);
    assert Run(w, []) == WithPlan(w, active, p);
    hide WorldOk, Run, RowNext;
    if active in w.t.links {
      steps := CarryOutLinked(w, w, [], active, p);
    } else {
      steps := CarryOut(w, w, [], active, p);
    }
    NoneActive(w.t, Run(w, steps).t, active);
    RunKeeps(w, steps);
  }

  lemma {:induction false} RunJoined(w: World, a: seq<Step>, b: seq<Step>)
    ensures Run(w, a + b) == Run(Run(w, a), b)
  {
    if b == [] {
      assert a + b == a;
    } else {
      assert (a + b)[..|a + b| - 1] == a + b[..|b| - 1];
      RunJoined(w, a, b[..|b| - 1]);
    }
    hide Next;
  }

  /** A plan that is still active is carried on first; then the client catches up. In the end everything the server has
      is confirmed, and every baseline is the one that applying the log in order gives. */
  lemma AlwaysCatchesUp(w: World, id: Uuid) returns (steps: seq<Step>)
    requires WorldOk(w) && OneActive(w.t) && Unused(w.t, id) && |w.log| <= MAX_INT64
    requires forall x :: x in w.t.plans && ActivePlan(w.t.plans[x]) ==> Resumable(w.t, x)
    ensures var v := Run(w, steps);
            && WorldOk(v) && v.log == w.log && !SomeActive(v.t) && v.t.confirmed == v.t.downloaded == |w.log|
            && ((forall c :: c in w.own ==> c <= |w.log|) ==>
                  forall o :: Revision(v.t.baselines, o) == Revision(InOrder(w.log, |w.log|), o))
  {
    var first: seq<Step> := [];
    RunNone(w);
    if SomeActive(w.t) {
      var x :| x in w.t.plans && ActivePlan(w.t.plans[x]);
      hide WorldOk, Run, Resumable, OneActive;
      first := Resume(w, x);
    }
    hide WorldOk, Run, Resumable, OneActive, SomeActive;
    assert Unused(Run(w, first).t, id);
    var rest := CatchUp(Run(w, first), id);
    steps := first + rest;
    RunJoined(w, first, rest);
    var v := Run(w, steps);
    if forall c :: c in w.own ==> c <= |w.log| {
      forall o
        ensures Revision(v.t.baselines, o) == Revision(InOrder(w.log, |w.log|), o)
      {
        AgreesWithInOrder(v, o);
      }
    }
  }
}
