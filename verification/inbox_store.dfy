/** The inbox store as the client runs it: each transaction is one method over the tables. */
module InboxStore {
  import opened Ids
  import opened Inbox

  lemma {:induction false} InsertedNext(inbox: map<nat, InboxRow>, page: seq<Change>, i: nat)
    requires i < |page|
    ensures Inserted(inbox, page[..i + 1]) == Inserted(inbox, page[..i])[page[i].cursor := InboxRow(page[i], Waiting)]
  {
    assert page[..i + 1][..i] == page[..i];
  }

  /** The loop's table of projected revisions, with unseen objects still at their baseline. */
  ghost predicate ProjectionHeld(baselines: map<Uuid, nat>, steps: seq<Change>, n: nat, projected: map<Uuid, nat>)
    requires n <= |steps|
  {
    forall o :: Reached(baselines, steps, o, n) == if o in projected then projected[o] else Revision(baselines, o)
  }

  lemma ProjectNone(baselines: map<Uuid, nat>, steps: seq<Change>)
    ensures ProjectionHeld(baselines, steps, 0, map[]) && Prepare(baselines, steps, 0) == []
  {
  }

  lemma ProjectNext(baselines: map<Uuid, nat>, steps: seq<Change>, n: nat, projected: map<Uuid, nat>, revision: nat)
    requires n < |steps| && ProjectionHeld(baselines, steps, n, projected)
    requires revision == if steps[n].obj in projected then projected[steps[n].obj]
             else Revision(baselines, steps[n].obj)
    ensures StepFits(baselines, steps, n) <==> steps[n].revision <= revision + 1
    ensures Prepare(baselines, steps, n + 1)
            == Prepare(baselines, steps, n) + [PlanStep(steps[n], steps[n].revision <= revision)]
    ensures steps[n].revision <= revision ==>
              ProjectionHeld(baselines, steps, n + 1, projected[steps[n].obj := revision])
    ensures steps[n].revision > revision ==>
              ProjectionHeld(baselines, steps, n + 1, projected[steps[n].obj := steps[n].revision])
  {
    assert Reached(baselines, steps, steps[n].obj, n) == revision;
  }

  /** The cursor moved over applied rows only, and stopped at the first row that is not. */
  ghost predicate Confirmed(inbox: map<nat, InboxRow>, from: nat, to: nat, downloaded: nat) {
    && from <= to && (from <= downloaded ==> to <= downloaded)
    && (forall c :: from < c <= to ==> c in inbox && inbox[c].state == Applied)
    && (to < downloaded ==> to + 1 !in inbox || inbox[to + 1].state != Applied)
  }

  /** A started plan in cursor order, at the confirmed cursor and with every step applied. */
  predicate OrderedDone(t: Tables, id: Uuid) {
    && id in t.plans && id !in t.links && t.plans[id].status == Ongoing && t.plans[id].from == t.confirmed
    && forall k :: 0 <= k < |t.plans[id].steps| ==> t.plans[id].steps[k].applied
  }

  /** A started plan ahead of order whose one step is applied, whose row is marked, and whose object is one revision
      short. */
  predicate LinkedDone(t: Tables, id: Uuid) {
    && id in t.plans && id in t.links && t.plans[id].status == Ongoing && t.links[id] in t.inbox
    && t.inbox[t.links[id]].state == Applying && |t.plans[id].steps| == 1
    && var step := t.plans[id].steps[0];
       && step.applied && step.change.cursor == t.links[id] && step.change.revision >= 2
       && step.change.obj in t.baselines && t.baselines[step.change.obj] + 1 == step.change.revision
  }

  /** Each revision is the highest of the old one and those of the steps. */
  ghost predicate HighestOf(before: map<Uuid, nat>, steps: seq<PlanStep>, after: map<Uuid, nat>) {
    && (forall o :: Revision(after, o) >= Revision(before, o))
    && (forall k :: 0 <= k < |steps| ==> Revision(after, steps[k].change.obj) >= steps[k].change.revision)
    && forall o :: Revision(after, o) == Revision(before, o)
         || exists k :: 0 <= k < |steps| && steps[k].change.obj == o && steps[k].change.revision == Revision(after, o)
  }

  lemma {:induction false} RaisedHighest(before: map<Uuid, nat>, steps: seq<PlanStep>, n: nat)
    requires n <= |steps|
    ensures HighestOf(before, steps[..n], Raised(before, steps, n))
  {
    if n > 0 {
      RaisedHighest(before, steps, n - 1);
      var after, step := Raised(before, steps, n), steps[n - 1];
      HighestNext(before, steps[..n - 1], Raised(before, steps, n - 1), step, after);
      assert steps[..n] == steps[..n - 1] + [step];
    }
  }

  lemma HighestNext(before: map<Uuid, nat>, steps: seq<PlanStep>, now: map<Uuid, nat>, step: PlanStep,
                    after: map<Uuid, nat>)
    requires HighestOf(before, steps, now)
    requires after == if step.change.obj !in now || step.change.revision > now[step.change.obj]
                      then now[step.change.obj := step.change.revision] else now
    ensures HighestOf(before, steps + [step], after)
  {
    var all := steps + [step];
    forall o
      ensures Revision(after, o) == Revision(before, o)
              || exists k :: 0 <= k < |all| && all[k].change.obj == o && all[k].change.revision == Revision(after, o)
    {
      if o == step.change.obj && Revision(after, o) == step.change.revision {
        assert all[|steps|] == step;
      } else if Revision(now, o) != Revision(before, o) {
        var k :| 0 <= k < |steps| && steps[k].change.obj == o && steps[k].change.revision == Revision(now, o);
        assert all[k] == steps[k];
      }
    }
  }

  lemma OrderedCompletes(t: Tables, id: Uuid)
    requires OrderedDone(t, id)
    ensures !LinkedDone(t, id)
            && HighestOf(t.baselines, t.plans[id].steps, Raised(t.baselines, t.plans[id].steps, |t.plans[id].steps|))
  {
    var steps := t.plans[id].steps;
    RaisedHighest(t.baselines, steps, |steps|);
    assert steps[..|steps|] == steps;
    hide HighestOf;
  }

  lemma PlannedAlone(t: Tables, id: Uuid, from: nat, through: nat, steps: seq<Change>)
    requires OneActive(t)
    ensures OneActive(CreateOrdered(t, id, from, through, steps))
  {
    hide ValidOperationId, ValidChange, Contiguous, StepFits, Prepare;
  }

  class Store {
    var inbox: map<nat, InboxRow>
    var downloaded: nat
    var confirmed: nat
    var baselines: map<Uuid, nat>
    var plans: map<Uuid, Plan>
    var links: map<Uuid, nat>

    function View(): Tables
      reads this
    {
      Tables(inbox, downloaded, confirmed, baselines, plans, links)
    }

    /** Store one page: append it at the downloaded frontier, or accept it as an exact replay below. */
    method IngestPullPage(from: nat, next: nat, page: seq<Change>) returns (ok: bool)
      modifies this`inbox, this`downloaded
      ensures ok == PageFits(old(View()), from, next, page)
      ensures View() == Ingest(old(View()), from, next, page)
    {
      hide ValidChange;
      if !PageShape(from, next, page) {
        return false;
      }
      if from < downloaded {
        if next > downloaded {
          return false;
        }
        for i := 0 to |page|
          invariant forall j :: 0 <= j < i ==> page[j].cursor in inbox && inbox[page[j].cursor].change == page[j]
        {
          if page[i].cursor !in inbox || inbox[page[i].cursor].change != page[i] {
            return false;
          }
        }
        return true;
      }
      if from != downloaded {
        return false;
      }
      for i := 0 to |page|
        invariant inbox == Inserted(old(inbox), page[..i])
        invariant View() == old(View()).(inbox := inbox)
      {
        InsertedNext(old(inbox), page, i);
        inbox := inbox[page[i].cursor := InboxRow(page[i], Waiting)];
      }
      assert page[..|page|] == page;
      downloaded := next;
      ok := true;
    }

    /** Plan the changes behind the confirmed cursor; a step at or below its object's projected revision starts out
        applied. */
    method CreateApplyPlan(id: Uuid, from: nat, through: nat, steps: seq<Change>) returns (ok: bool)
      modifies this`plans
      ensures ok == OrderedOk(old(View()), id, from, through, steps)
      ensures View() == CreateOrdered(old(View()), id, from, through, steps)
      ensures OneActive(old(View())) ==> OneActive(View())
    {
      hide ValidChange, SomeActive, OneActive, StepFits, ProjectionHeld, Prepare, Reached;
      if OneActive(View()) {
        PlannedAlone(View(), id, from, through, steps);
      }
      if !ValidOperationId(id) || through < from || through > MAX_INT64 || confirmed != from || id in plans
          || SomeActive(View()) {
        return false;
      }
      var previous := from;
      var projected: map<Uuid, nat> := map[];
      var prepared: seq<PlanStep> := [];
      ProjectNone(baselines, steps);
      for n := 0 to |steps|
        invariant previous == from + n <= through
        invariant forall k :: 0 <= k < n ==>
                    steps[k].cursor == from + k + 1 && ValidChange(steps[k]) && StepFits(baselines, steps, k)
        invariant ProjectionHeld(baselines, steps, n, projected)
        invariant prepared == Prepare(baselines, steps, n)
        invariant View() == old(View())
      {
        var step := steps[n];
        if step.cursor != previous + 1 || step.cursor > through || !ValidChange(step) {
          return false;
        }
        var revision := if step.obj in projected then projected[step.obj] else Revision(baselines, step.obj);
        ProjectNext(baselines, steps, n, projected, revision);
        if step.revision <= revision {
          prepared := prepared + [PlanStep(step, true)];
          projected := projected[step.obj := revision];
        } else if step.revision != revision + 1 {
          return false;
        } else {
          prepared := prepared + [PlanStep(step, false)];
          projected := projected[step.obj := step.revision];
        }
        previous := step.cursor;
      }
      if steps == [] || previous != through {
        return false;
      }
      plans := plans[id := Plan(from, through, Planned, prepared)];
      ok := true;
    }

    /** Plan one waiting row ahead of order; no second plan gets active, and nothing is applied yet. */
    method CreateInboxApplyPlan(intents: set<Uuid>, c: nat, id: Uuid)
      modifies this`plans, this`links
      ensures View() == CreateLinked(old(View()), intents, c, id)
      ensures NothingApplied(old(View()), View(), id) && (OneActive(old(View())) ==> OneActive(View()))
      ensures View() == old(View())
              || (PlansRow(View(), id) && links[id] == c && plans[id].steps == [PlanStep(inbox[c].change, false)])
    {
      if c == 0 || !ValidOperationId(id) || !Eligible(View(), intents, c) || SomeActive(View()) || id in plans
          || c in links.Values {
        return;
      }
      plans := plans[id := Plan(c - 1, c, Planned, [PlanStep(inbox[c].change, false)])];
      links := links[id := c];
    }

    /** Start a plan that was not started; the row it is linked to is marked, unless it is applied, which refuses the
        start. */
    method BeginApplyPlan(id: Uuid)
      modifies this`inbox, this`plans
      ensures View() == Begin(old(View()), id)
      ensures NothingApplied(old(View()), View(), id) && (OneActive(old(View())) ==> OneActive(View()))
      ensures inbox.Keys == old(inbox.Keys)
      ensures forall e :: e in inbox ==>
                inbox[e] == old(inbox)[e]
                    || (inbox[e] == old(inbox)[e].(state := Applying) && old(inbox)[e].state != Applied)
      ensures View() == old(View())
              || (plans[id] == old(plans[id]).(status := Ongoing)
                  && forall e :: e in inbox && id in links && e == links[id] ==> inbox[e].state == Applying)
    {
      if id !in plans || plans[id].status != Planned {
        return;
      }
      if id in links {
        var c := links[id];
        if c !in inbox || inbox[c].state == Applied {
          return;
        }
        inbox := inbox[c := inbox[c].(state := Applying)];
      }
      plans := plans[id := plans[id].(status := Ongoing)];
    }

    /** Mark one step of a started plan; no step loses its mark. */
    method MarkApplyStepApplied(id: Uuid, k: nat)
      modifies this`plans
      ensures View() == MarkStep(old(View()), id, k)
      ensures NothingApplied(old(View()), View(), id) && (OneActive(old(View())) ==> OneActive(View()))
      ensures id in old(plans) ==>
                && id in plans && |plans[id].steps| == |old(plans[id]).steps|
                && forall j :: 0 <= j < |plans[id].steps| ==>
                     && plans[id].steps[j].change == old(plans[id]).steps[j].change
                     && (plans[id].steps[j].applied <==>
                         old(plans[id]).steps[j].applied || (j == k && old(plans[id]).status == Ongoing))
    {
      if id in plans && plans[id].status == Ongoing && k < |plans[id].steps| {
        var p := plans[id];
        plans := plans[id := p.(steps := p.steps[k := p.steps[k].(applied := true)])];
      }
    }

    /** Move the confirmed cursor over the applied rows right behind it. */
    method AdvanceConfirmedInboxCursor()
      modifies this`confirmed
      ensures View() == AdvanceConfirmed(old(View()))
      ensures Confirmed(inbox, old(confirmed), confirmed, downloaded)
    {
      var frontier := confirmed;
      while frontier < downloaded && frontier + 1 in inbox && inbox[frontier + 1].state == Applied
        invariant Frontier(inbox, frontier, downloaded) == Frontier(inbox, old(confirmed), downloaded)
        invariant old(confirmed) <= frontier && (old(confirmed) <= downloaded ==> frontier <= downloaded)
        invariant forall c :: old(confirmed) < c <= frontier ==> c in inbox && inbox[c].state == Applied
        decreases downloaded - frontier
      {
        frontier := frontier + 1;
      }
      confirmed := frontier;
    }

    method CompleteApplyPlan(id: Uuid)
      modifies this`inbox, this`plans, this`baselines, this`confirmed
      ensures View() == Complete(old(View()), id)
      ensures var t := old(View());
        OrderedDone(t, id) ==>
          && plans == t.plans[id := t.plans[id].(status := Done)] && confirmed == t.plans[id].through
          && HighestOf(t.baselines, t.plans[id].steps, baselines) && inbox == t.inbox
      ensures var t := old(View());
        LinkedDone(t, id) ==>
          var c, change := t.links[id], t.plans[id].steps[0].change;
          && plans == t.plans[id := t.plans[id].(status := Done)]
          && inbox == t.inbox[c := t.inbox[c].(state := Applied)]
          && baselines == t.baselines[change.obj := change.revision]
          && Confirmed(inbox, t.confirmed, confirmed, downloaded)
      ensures !OrderedDone(old(View()), id) && !LinkedDone(old(View()), id) ==> View() == old(View())
      ensures OneActive(old(View())) ==> OneActive(View())
    {
      hide Frontier, HighestOf, Confirmed;
      if OrderedDone(View(), id) {
        OrderedCompletes(View(), id);
      }
      if LinkedCompletable(View(), id) {
        var c, step := links[id], plans[id].steps[0];
        baselines := baselines[step.change.obj := step.change.revision];
        inbox := inbox[c := inbox[c].(state := Applied)];
        plans := plans[id := plans[id].(status := Done)];
        AdvanceConfirmedInboxCursor();
      } else if OrderedCompletable(View(), id) {
        var p := plans[id];
        for k := 0 to |p.steps|
          invariant baselines == Raised(old(baselines), p.steps, k)
          invariant View() == old(View()).(baselines := baselines)
        {
          var c := p.steps[k].change;
          if c.obj !in baselines || c.revision > baselines[c.obj] {
            baselines := baselines[c.obj := c.revision];
          }
        }
        confirmed := p.through;
        plans := plans[id := p.(status := Done)];
      }
    }

    /** Give up a plan that was not started: its row goes on waiting, and another plan may get active. */
    method AbandonPreparedInboxPlan(id: Uuid)
      modifies this`plans
      ensures View() == Abandon(old(View()), id)
      ensures NothingApplied(old(View()), View(), id) && (OneActive(old(View())) ==> OneActive(View()))
      ensures View() != old(View()) ==>
                && plans[id] == old(plans[id]).(status := Dropped) && inbox[links[id]].state == Waiting
                && (OneActive(old(View())) ==> !SomeActive(View()))
    {
      if id in plans && id in links && plans[id].status == Planned && |plans[id].steps| == 1
          && !plans[id].steps[0].applied
         && links[id] in inbox && inbox[links[id]].state == Waiting {
        plans := plans[id := plans[id].(status := Dropped)];
      }
    }

    /** Take an abandoned plan up again, if its row could be planned now. */
    method RetryAbandonedInboxPlan(intents: set<Uuid>, id: Uuid)
      modifies this`plans
      ensures View() == Retry(old(View()), intents, id)
      ensures NothingApplied(old(View()), View(), id) && (OneActive(old(View())) ==> OneActive(View()))
      ensures View() != old(View()) ==>
                && PlansRow(View(), id) && plans[id] == old(plans[id]).(status := Planned)
                && inbox[links[id]].change.obj !in intents
                && NoEarlierOpen(View(), links[id], inbox[links[id]].change.obj)
    {
      if RetryOk(View(), intents, id) {
        plans := plans[id := plans[id].(status := Planned)];
      }
    }

    /** Mirror the confirmed cursor into the row states. */
    method ReconcileInboxAppliedThroughConfirmed()
      modifies this`inbox, this`downloaded
      ensures View() == Reconcile(old(View()))
      ensures Gapless(old(View())) ==>
        && inbox.Keys == old(inbox.Keys)
        && forall c :: c in inbox ==>
             inbox[c] == if c <= confirmed then old(inbox)[c].(state := Applied) else old(inbox)[c]
      ensures !Gapless(old(View())) ==> inbox == old(inbox)
    {
      if inbox == map[] {
        if downloaded < confirmed {
          downloaded := confirmed;
        }
        return;
      }
      if !Gapless(View()) {
        return;
      }
      ghost var before := inbox;
      var rows := inbox;
      var todo := inbox.Keys;
      while todo != {}
        invariant todo <= rows.Keys && HalfReconciled(before, rows, todo, confirmed)
        decreases |todo|
      {
        var c :| c in todo;
        todo := todo - {c};
        if c <= confirmed {
          rows := rows[c := rows[c].(state := Applied)];
        }
      }
      FullyReconciled(before, rows, confirmed);
      inbox := rows;
    }
  }

  ghost predicate HalfReconciled(before: map<nat, InboxRow>, now: map<nat, InboxRow>, todo: set<nat>, confirmed: nat) {
    && now.Keys == before.Keys
    && forall c :: c in now ==> now[c] == if c in todo || c > confirmed then before[c] else before[c].(state := Applied)
  }

  lemma FullyReconciled(before: map<nat, InboxRow>, now: map<nat, InboxRow>, confirmed: nat)
    requires HalfReconciled(before, now, {}, confirmed)
    ensures now == Reconciled(before, confirmed)
  {
  }
}
