/** Whole runs of the outbox: any mix of batches, attempts, answers and superseded dependents. */
module OutboxRuns {
  import opened Ids
  import opened Outbox
  import opened OutboxChain
  import opened OutboxEnqueue
  import opened OutboxBatch
  import opened OutboxProgress
  import opened OutboxLive

  datatype Step =
    | EnqueueBatch(ms: seq<Mutation>)
    | AttemptOp(op: Uuid)
    | ResultOf(op: Uuid, answer: Answer)
    | MismatchOf(op: Uuid)
    | SupersedeBehind(op: Uuid)

  function Next(s: State, step: Step): State {
    match step
    case EnqueueBatch(ms) => var b := EnqueueAll(Running(s, {}), ms); if b.Running? then b.s else s
    case AttemptOp(op) => Attempt(s, op)
    case ResultOf(op, answer) => Record(s, op, answer)
    case MismatchOf(op) => Mismatch(s, op)
    case SupersedeBehind(op) => SupersedeDependents(s, op)
  }

  function Run(s: State, steps: seq<Step>): State {
    if steps == [] then s else Next(Run(s, steps[..|steps| - 1]), steps[|steps| - 1])
  }

  /** The batch creates only objects whose queue is empty, when its turn comes. */
  predicate StepCreatesAlone(s: State, step: Step) {
    step.EnqueueBatch? && EnqueueAll(Running(s, {}), step.ms).Running? ==> CreatesAlone(s, step.ms)
  }

  predicate StepLive(s: State, step: Step) {
    step.EnqueueBatch? && EnqueueAll(Running(s, {}), step.ms).Running? ==> LiveBatch(s, step.ms)
  }

  predicate RunCreatesAlone(s: State, steps: seq<Step>) {
    forall k :: 0 <= k < |steps| ==> StepCreatesAlone(Run(s, steps[..k]), steps[k])
  }

  predicate RunLive(s: State, steps: seq<Step>) {
    forall k :: 0 <= k < |steps| ==> StepLive(Run(s, steps[..k]), steps[k])
  }

  lemma StepKeeps(s: State, step: Step)
    requires Invariant(s) && StepCreatesAlone(s, step)
    ensures Invariant(Next(s, step))
  {
    hide Invariant, Attempt, Record, Mismatch, SupersedeDependents, CreatesAlone;
    match step {
      case EnqueueBatch(ms) =>
        if EnqueueAll(Running(s, {}), ms).Running? {
          BatchKeeps(s, ms);
        }
      case AttemptOp(op) => AttemptKeeps(s, op);
      case ResultOf(op, answer) => RecordKeeps(s, op, answer);
      case MismatchOf(op) => MismatchKeeps(s, op);
      case SupersedeBehind(op) => SupersedeKeeps(s, op);
    }
  }

  lemma PrefixCreatesAlone(s: State, steps: seq<Step>)
    requires steps != [] && RunCreatesAlone(s, steps)
    ensures RunCreatesAlone(s, steps[..|steps| - 1])
            && StepCreatesAlone(Run(s, steps[..|steps| - 1]), steps[|steps| - 1])
  {
    var init := steps[..|steps| - 1];
    hide StepCreatesAlone, Run;
    forall k | 0 <= k < |init|
      ensures StepCreatesAlone(Run(s, init[..k]), init[k])
    {
      assert init[..k] == steps[..k];
    }
  }

  /** Every run keeps each object's queue a chain from its baseline, as long as creates stand alone. */
  lemma {:induction false} RunKeepsChains(s: State, steps: seq<Step>)
    requires Invariant(s) && RunCreatesAlone(s, steps)
    ensures Invariant(Run(s, steps))
  {
    if steps != [] {
      PrefixCreatesAlone(s, steps);
      hide Invariant, RunCreatesAlone, StepCreatesAlone, Next;
      RunKeepsChains(s, steps[..|steps| - 1]);
      StepKeeps(Run(s, steps[..|steps| - 1]), steps[|steps| - 1]);
    }
  }

  /** An object without a conflict: its queued operations, in order, have base revisions baseline, baseline + 1, ...,
      each waiting for the one before, and the projection is the revision after the last of them. */
  lemma ChainOfCleanObject(s: State, o: Uuid)
    requires Invariant(s) && forall j :: 0 <= j < |s.rows| ==> !StuckOf(s, o, j)
    ensures forall i :: 0 <= i < |s.rows| && QueuedOf(s, o, i) ==>
      && s.rows[i].m.base == Baseline(s, o) + Count(s, o, i)
      && (Count(s, o, i) + 1 == Count(s, o, |s.rows|) ==> Projected(s, o) == s.rows[i].m.base + 1)
      && (forall j :: 0 <= j < i && Before(s, o, j, i) ==> s.rows[j].m.op in Deps(s.rows[i].m))
  {
    FromInvariant(s, o);
    hide Count, QueuedOf, Baseline, WellFormed;
    forall i | 0 <= i < |s.rows| && QueuedOf(s, o, i)
      ensures Linked(s, o, i)
    {
      CleanObjectIsFree(s, o, i);
    }
  }

  lemma {:induction false} CleanObjectIsFree(s: State, o: Uuid, i: nat)
    requires i < |s.rows| && forall j :: 0 <= j < |s.rows| ==> !StuckOf(s, o, j)
    ensures !Blocked(s, o, i)
  {
    hide StuckOf, Unmet;
    forall j | 0 <= j < i
      ensures !Blocked(s, o, j)
    {
      CleanObjectIsFree(s, o, j);
    }
  }

  // ---------------------------------------------------------------- nothing stranded

  lemma StepStrandsNobody(s: State, step: Step)
    requires WellFormed(s) && NoneStranded(s) && StepLive(s, step)
    ensures WellFormed(Next(s, step)) && NoneStranded(Next(s, step))
  {
    hide WellFormed, NoneStranded, LiveBatch, SupersedeDependents, Deps;
    match step {
      case EnqueueBatch(ms) =>
        if EnqueueAll(Running(s, {}), ms).Running? {
          BatchStrandsIff(s, ms);
          TouchAll(s, ms, 0);
        }
      case AttemptOp(op) =>
        RecordWellFormed(s, op, Rejected);
        var i := IndexOf(s, op, |s.rows|);
        if i < |s.rows| && Ready(s, i) {
          StatusStrandsNobody(s, i, Attempted);
        }
      case ResultOf(op, answer) =>
        RecordWellFormed(s, op, answer);
        RecordStrandsNobody(s, op, answer);
      case MismatchOf(op) =>
        RecordWellFormed(s, op, Rejected);
        var i := IndexOf(s, op, |s.rows|);
        if i < |s.rows| && Queued(s.rows[i].status) {
          StatusStrandsNobody(s, i, ReplayMismatch);
        }
      case SupersedeBehind(op) =>
        SupersedeStrandsNobody(s, op);
        SupersededRows(s, op, 0);
    }
  }

  lemma RecordStrandsNobody(s: State, op: Uuid, answer: Answer)
    requires NoneStranded(s)
    ensures NoneStranded(Record(s, op, answer))
  {
    var i := IndexOf(s, op, |s.rows|);
    if Recordable(s, op, answer) {
      var status := if answer == Rejected then Conflict else Accepted;
      StatusStrandsNobody(s, i, status);
      var t := Record(s, op, answer);
      assert t.rows == SetStatus(s, i, status).rows;
      assert forall x: nat, y: nat :: Dep(t, x, y) == Dep(SetStatus(s, i, status), x, y);
    }
  }

  lemma PrefixLive(s: State, steps: seq<Step>)
    requires steps != [] && RunLive(s, steps)
    ensures RunLive(s, steps[..|steps| - 1]) && StepLive(Run(s, steps[..|steps| - 1]), steps[|steps| - 1])
  {
    var init := steps[..|steps| - 1];
    hide StepLive, Run;
    forall k | 0 <= k < |init|
      ensures StepLive(Run(s, init[..k]), init[k])
    {
      assert init[..k] == steps[..k];
    }
  }

  /** No run leaves a queued operation waiting for a superseded one, if new operations name live dependencies. */
  lemma {:induction false} RunStrandsNobody(s: State, steps: seq<Step>)
    requires WellFormed(s) && NoneStranded(s) && RunLive(s, steps)
    ensures WellFormed(Run(s, steps)) && NoneStranded(Run(s, steps))
  {
    if steps != [] {
      PrefixLive(s, steps);
      hide WellFormed, NoneStranded, RunLive, StepLive, Next;
      RunStrandsNobody(s, steps[..|steps| - 1]);
      StepStrandsNobody(Run(s, steps[..|steps| - 1]), steps[|steps| - 1]);
    }
  }

  /** Hence something is always ready while the queue is not empty and nothing is in conflict. */
  lemma RunNeverStalls(s: State, steps: seq<Step>)
    requires WellFormed(s) && NoneStranded(s) && RunLive(s, steps)
    requires NoneStuck(Run(s, steps))
             && exists i :: 0 <= i < |Run(s, steps).rows| && Queued(Run(s, steps).rows[i].status)
    ensures exists i :: 0 <= i < |Run(s, steps).rows| && Ready(Run(s, steps), i)
  {
    RunStrandsNobody(s, steps);
    hide Run, RunLive;
    FirstIsReady(Run(s, steps));
  }

  /** Superseding what waits for a refused operation gives its object a plain chain again. */
  lemma SupersedeUnblocks(s: State, o: Uuid, c: nat)
    requires Invariant(s) && StuckOf(s, o, c) && forall j :: 0 <= j < |s.rows| && StuckOf(s, o, j) ==> j == c
    ensures var t := SupersedeDependents(s, s.rows[c].m.op);
            Invariant(t) && forall i :: 0 <= i < |t.rows| && QueuedOf(t, o, i) ==> Linked(t, o, i)
  {
    var op := s.rows[c].m.op;
    var t := SupersedeDependents(s, op);
    SupersedeKeeps(s, op);
    FromInvariant(s, o);
    FromInvariant(t, o);
    SupersededRows(s, op, o);
    hide Linked, Doomed, SupersedeDependents, WellFormed, Invariant;
    forall i | 0 <= i < |t.rows| && QueuedOf(t, o, i)
      ensures Linked(t, o, i)
    {
      BlockedSame(s, t, o, i);
      if Blocked(s, o, i) {
        BlockedIsDoomed(s, o, c, i);
      }
    }
  }

  lemma {:induction false} BlockedIsDoomed(s: State, o: Uuid, c: nat, i: nat)
    requires c < |s.rows| && forall j :: 0 <= j < |s.rows| && StuckOf(s, o, j) ==> j == c
    requires Blocked(s, o, i)
    ensures Doomed(s, s.rows[c].m.op, i)
  {
    hide StuckOf, Unmet;
    var j :| 0 <= j < i && Dep(s, i, j) && (StuckOf(s, o, j) || (Unmet(s, j) && Blocked(s, o, j)));
    if !StuckOf(s, o, j) {
      BlockedIsDoomed(s, o, c, j);
    }
  }
}
