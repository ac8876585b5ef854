/** The outbox store as the client runs it: each transaction is one method over the tables. */
module OutboxStore {
  import opened Ids
  import opened Optional
  import opened Outbox
  import opened OutboxChain
  import OutboxProgress

  lemma DependentsDoomed(s: State, c: Uuid, i: nat, j: nat)
    requires Dep(s, i, j) && (s.rows[j].m.op == c || Doomed(s, c, j))
    ensures Doomed(s, c, i)
  {
  }

  lemma {:induction false} ClosureIsDoomed(s: State, c: Uuid, doomed: set<nat>, i: nat)
    requires forall x: nat, y: nat :: Dep(s, x, y) && (s.rows[y].m.op == c || y in doomed) ==> x in doomed
    requires Doomed(s, c, i)
    ensures i in doomed
  {
    var j :| 0 <= j < i && Dep(s, i, j) && (s.rows[j].m.op == c || Doomed(s, c, j));
    if s.rows[j].m.op != c {
      ClosureIsDoomed(s, c, doomed, j);
    }
  }

  /** Row i names operation c itself. */
  predicate DependsOn(s: State, c: Uuid, i: nat) {
    exists j :: 0 <= j < i && Dep(s, i, j) && s.rows[j].m.op == c
  }

  ghost predicate AllDoomed(s: State, c: Uuid, doomed: set<nat>) {
    forall i :: i in doomed ==> i < |s.rows| && Doomed(s, c, i)
  }

  /** Everything that depends on c or on a finished member has been found. */
  ghost predicate ClosedBut(s: State, c: Uuid, doomed: set<nat>, frontier: set<nat>) {
    && (forall i: nat, j: nat :: Dep(s, i, j) && s.rows[j].m.op == c ==> i in doomed)
    && (forall i: nat, j: nat :: Dep(s, i, j) && j in doomed && j !in frontier ==> i in doomed)
  }

  lemma DirectDoomed(s: State, c: Uuid, doomed: set<nat>)
    requires forall i: nat :: i in doomed <==> i < |s.rows| && DependsOn(s, c, i)
    ensures AllDoomed(s, c, doomed) && ClosedBut(s, c, doomed, doomed)
  {
    forall i: nat, j: nat | Dep(s, i, j) && s.rows[j].m.op == c
      ensures i in doomed
    {
      assert DependsOn(s, c, i);
    }
  }

  lemma GrowClosure(s: State, c: Uuid, doomed: set<nat>, frontier: set<nat>, j: nat, found: set<nat>)
    requires AllDoomed(s, c, doomed) && ClosedBut(s, c, doomed, frontier) && j in frontier && frontier <= doomed
    requires forall i: nat :: i in found <==> i < |s.rows| && Dep(s, i, j) && i !in doomed
    ensures AllDoomed(s, c, doomed + found) && ClosedBut(s, c, doomed + found, frontier - {j} + found)
    ensures |doomed + found| <= |s.rows| && (found != {} ==> |doomed + found| > |doomed|) && |doomed| <= |s.rows|
    ensures found == {} ==> doomed + found == doomed && |frontier - {j} + found| < |frontier|
  {
    forall i | i in found
      ensures Doomed(s, c, i)
    {
      DependentsDoomed(s, c, i, j);
    }
    SubsetCard(doomed + found, |s.rows|);
    SubsetCard(doomed, |s.rows|);
    if found != {} {
      assert |doomed + found| == |doomed| + |found|;
    } else {
      assert doomed + found == doomed && frontier - {j} + found == frontier - {j};
    }
  }

  lemma ClosedIsAll(s: State, c: Uuid, doomed: set<nat>)
    requires AllDoomed(s, c, doomed) && ClosedBut(s, c, doomed, {})
    ensures forall i: nat :: i in doomed <==> i < |s.rows| && Doomed(s, c, i)
  {
    forall i: nat | Doomed(s, c, i)
      ensures i in doomed
    {
      ClosureIsDoomed(s, c, doomed, i);
    }
  }

  lemma SubsetCard(a: set<nat>, n: nat)
    requires forall x :: x in a ==> x < n
    ensures |a| <= n
  {
    if n == 0 {
      assert a == {};
    } else {
      SubsetCard(a - {n - 1}, n - 1);
      assert a <= (a - {n - 1}) + {n - 1};
    }
  }

  /** In a well-formed outbox, row i is the row of the operation. */
  ghost predicate Names(s: State, i: nat, op: Uuid) {
    WellFormed(s) && i < |s.rows| && s.rows[i].m.op == op
  }

  /** The answer accepts the ready operation of row i, at the next revision. */
  predicate AcceptedNow(s: State, i: nat, answer: Answer) {
    Ready(s, i) && answer == AcceptedAt(s.rows[i].m.base + 1) && answer.revision <= MAX_INT64
  }

  lemma OneRow(s: State, op: Uuid)
    ensures forall i: nat :: Names(s, i, op) ==> IndexOf(s, op, |s.rows|) == i
  {
    forall i: nat | Names(s, i, op)
      ensures IndexOf(s, op, |s.rows|) == i
    {
      OutboxProgress.IndexIs(s, i, |s.rows|);
    }
    hide IndexOf, WellFormed;
  }

  class Store {
    var outbox: seq<Row>
    var baselines: map<Uuid, nat>
    var met: set<Uuid>
    var recoveries: map<Uuid, Recovery>

    function View(): State
      reads this
    {
      State(outbox, baselines, met, recoveries)
    }

    constructor ()
      ensures View() == State([], map[], {}, map[])
    {
      outbox, baselines, met, recoveries := [], map[], {}, map[];
    }

    /** The revision an object will have once its queue is sent, and the operation a later one must wait for. */
    static method Projection(s: State, o: Uuid) returns (ok: bool, revision: nat, last: Option<Uuid>, durable: bool)
      ensures ok <==> ProjectionOk(s, o)
      ensures ok ==> revision == Projected(s, o) && last == LastQueued(s, o, |s.rows|) && durable == Durable(s, o)
    {
      revision, last, durable := Baseline(s, o), None, o in s.baselines;
      for i := 0 to |s.rows|
        invariant revision == Baseline(s, o) + Count(s, o, i)
        invariant last == LastQueued(s, o, i)
        invariant durable == (o in s.baselines || Count(s, o, i) > 0)
        invariant Count(s, o, i) > 0 ==> revision <= MAX_INT64
      {
        if s.rows[i].m.obj == o && Queued(s.rows[i].status) {
          if revision >= MAX_INT64 {
            CountMonotone(s, o, i + 1, |s.rows|);
            return false, revision, last, durable;
          }
          revision, last, durable := revision + 1, Some(s.rows[i].m.op), true;
        }
      }
      ok := true;
    }

    /** Supersede the unattempted, unreferenced operations of m's object that m does not wait for. */
    static method Coalesce(s: State, m: Mutation) returns (t: State)
      ensures t == Coalesced(s, m)
    {
      var candidates: set<nat> := {};
      for j := 0 to |s.rows|
        invariant forall k :: k in candidates <==> 0 <= k < j && Coalesces(s, m, k)
      {
        if s.rows[j].m.obj == m.obj && s.rows[j].status == Pending && !Referenced(s, j) && s.rows[j].m.op !in Deps(m) {
          candidates := candidates + {j};
        }
      }
      var rows := s.rows;
      for j := 0 to |rows|
        invariant |rows| == |s.rows|
        invariant forall k :: 0 <= k < j ==> rows[k] == Coalesced(s, m).rows[k]
        invariant forall k :: j <= k < |rows| ==> rows[k] == s.rows[k]
      {
        if j in candidates {
          rows := rows[j := rows[j].(status := Superseded)];
        }
      }
      assert rows == Coalesced(s, m).rows;
      t := s.(rows := rows);
    }

    /** One transaction: the whole batch is queued, or nothing is. */
    method Enqueue(ms: seq<Mutation>) returns (ok: bool)
      modifies this
      ensures ok == EnqueueAll(Running(old(View()), {}), ms).Running?
      ensures View() == if ok then EnqueueAll(Running(old(View()), {}), ms).s else old(View())
    {
      hide Redundant, ValidMutation, Insertable, CreateAllowed, Coalesced, Appended;
      var s := View();
      var coalesced: set<Uuid> := {};
      for i := 0 to |ms|
        invariant EnqueueAll(Running(old(View()), {}), ms[..i]) == Running(s, coalesced)
        invariant View() == old(View())
      {
        var m := ms[i];
        assert ms[..i + 1][..i] == ms[..i];
        var accepted, redundant := Check(s, m);
        if !accepted {
          FailedStays(Running(old(View()), {}), ms, i + 1);
          return false;
        }
        if !redundant {
          if m.obj !in coalesced {
            s := Coalesce(s, m);
            coalesced := coalesced + {m.obj};
          }
          s := Appended(s, m);
        }
      }
      assert ms[..|ms|] == ms;
      outbox := s.rows;
      RowsOnly(Running(old(View()), {}), ms);
      ok := true;
    }

    /** Supersedes what is pending of an object. */
    method CancelPending(id: Uuid)
      modifies this
      ensures View() == Cancelled(old(View()), id)
      ensures |outbox| == |old(outbox)| && forall i :: 0 <= i < |outbox| ==>
                outbox[i] == if old(outbox)[i].m.obj == id && old(outbox)[i].status == Pending
                             then old(outbox)[i].(status := Superseded) else old(outbox)[i]
    {
      var s := View();
      for i := 0 to |s.rows|
        invariant View() == s.(rows := outbox) && |outbox| == |s.rows|
        invariant forall j :: 0 <= j < i ==> outbox[j] == Cancelled(s, id).rows[j]
        invariant forall j :: i <= j < |s.rows| ==> outbox[j] == s.rows[j]
      {
        if outbox[i].m.obj == id && outbox[i].status == Pending {
          outbox := outbox[i := outbox[i].(status := Superseded)];
        }
      }
      assert outbox == Cancelled(s, id).rows;
    }

    /** The checks before a row is inserted. */
    static method Check(s: State, m: Mutation) returns (accepted: bool, redundant: bool)
      ensures redundant == (ValidMutation(m) && Redundant(s, m))
      ensures accepted == (ValidMutation(m) && (Redundant(s, m) || Admitted(s, m)))
    {
      hide Redundant, Insertable, CreateAllowed;
      if !ValidMutation(m) {
        return false, false;
      }
      if Redundant(s, m) {
        return true, true;
      }
      var ok, revision, last, durable := Projection(s, m.obj);
      if !ok {
        return false, false;
      }
      if m.kind == Create {
        if !CreateAllowed(s, m.obj) {
          return false, false;
        }
      } else if !durable || revision != m.base || (last.Some? && last.value !in Deps(m)) {
        return false, false;
      }
      return Insertable(s, m), false;
    }

    /** The oldest operation whose prerequisites are all met. */
    method ListReady() returns (i: nat)
      ensures i <= |outbox|
      ensures i < |outbox| ==> Ready(View(), i)
      ensures forall j :: 0 <= j < i ==> !Ready(View(), j)
    {
      hide Ready;
      i := 0;
      while i < |outbox| && !Ready(View(), i)
        invariant i <= |outbox|
        invariant forall j :: 0 <= j < i ==> !Ready(View(), j)
      {
        i := i + 1;
      }
    }

    method MarkAttempted(op: Uuid) returns (ok: bool)
      modifies this`outbox
      ensures View() == Attempt(old(View()), op)
      ensures ok == (IndexOf(old(View()), op, |old(outbox)|) < |old(outbox)|
                     && Ready(old(View()), IndexOf(old(View()), op, |old(outbox)|)))
      ensures forall i: nat :: Names(old(View()), i, op) && Ready(old(View()), i) ==>
                ok && outbox == old(outbox)[i := old(outbox)[i].(status := Attempted)]
    {
      OneRow(View(), op);
      var i := IndexOf(View(), op, |outbox|);
      ok := i < |outbox| && Ready(View(), i);
      if ok {
        outbox := outbox[i := outbox[i].(status := Attempted)];
      }
    }

    /** `ok` is false where the transaction reports an error and changes nothing. */
    method RecordResult(op: Uuid, answer: Answer) returns (ok: bool)
      modifies this`outbox, this`baselines
      ensures View() == Record(old(View()), op, answer)
      ensures ok == Recordable(old(View()), op, answer)
      ensures forall i: nat :: Names(old(View()), i, op) && Queued(old(outbox)[i].status) && answer == Rejected ==>
                ok && baselines == old(baselines) && outbox == old(outbox)[i := old(outbox)[i].(status := Conflict)]
      ensures forall i: nat :: Names(old(View()), i, op) && AcceptedNow(old(View()), i, answer) ==>
                && ok && outbox == old(outbox)[i := old(outbox)[i].(status := Accepted)]
                && baselines == if old(outbox)[i].m.obj in old(baselines)
                                   && old(baselines)[old(outbox)[i].m.obj] >= answer.revision then old(baselines)
                                else old(baselines)[old(outbox)[i].m.obj := answer.revision]
    {
      OneRow(View(), op);
      var i := IndexOf(View(), op, |outbox|);
      if i == |outbox| || !Queued(outbox[i].status) {
        return false;
      }
      ok := true;
      match answer {
        case Rejected => outbox := outbox[i := outbox[i].(status := Conflict)];
        case AcceptedAt(revision) =>
          var o := outbox[i].m.obj;
          if Ready(View(), i) && revision == outbox[i].m.base + 1 && revision <= MAX_INT64 {
            outbox := outbox[i := outbox[i].(status := Accepted)];
            if o !in baselines || baselines[o] < revision {
              baselines := baselines[o := revision];
            }
          } else {
            ok := false;
          }
      }
    }

    method RecordReplayMismatch(op: Uuid)
      modifies this`outbox
      ensures View() == Mismatch(old(View()), op)
      ensures forall i: nat :: Names(old(View()), i, op) && Queued(old(outbox)[i].status) ==>
                outbox == old(outbox)[i := old(outbox)[i].(status := ReplayMismatch)]
    {
      OneRow(View(), op);
      var i := IndexOf(View(), op, |outbox|);
      if i < |outbox| && Queued(outbox[i].status) {
        outbox := outbox[i := outbox[i].(status := ReplayMismatch)];
      }
    }

    /** The rows found by following dependency rows forward from operation c. */
    static method Descendants(s: State, c: Uuid) returns (doomed: set<nat>)
      ensures forall i: nat :: i in doomed <==> i < |s.rows| && Doomed(s, c, i)
    {
      doomed := set i: nat | i < |s.rows| && DependsOn(s, c, i);
      DirectDoomed(s, c, doomed);
      hide *;
      var frontier := doomed;
      while frontier != {}
        invariant frontier <= doomed && AllDoomed(s, c, doomed) && ClosedBut(s, c, doomed, frontier)
        decreases |s.rows| - |doomed|, |frontier|
      {
        var j :| j in frontier;
        var found := set i: nat | i < |s.rows| && Dep(s, i, j) && i !in doomed;
        GrowClosure(s, c, doomed, frontier, j, found);
        doomed := doomed + found;
        frontier := frontier - {j} + found;
      }
      ClosedIsAll(s, c, doomed);
    }

    /** A staged conflict copy makes everything queued behind the conflicting operation obsolete. */
    method SupersedeQueuedDependents(c: Uuid)
      modifies this`outbox
      ensures View() == SupersedeDependents(old(View()), c)
    {
      var s := View();
      var doomed := Descendants(s, c);
      hide Doomed;
      for i := 0 to |outbox|
        invariant |outbox| == |s.rows| && View() == s.(rows := outbox)
        invariant forall k :: 0 <= k < i ==> outbox[k] == SupersedeDependents(s, c).rows[k]
        invariant forall k :: i <= k < |outbox| ==> outbox[k] == s.rows[k]
      {
        if i in doomed && Queued(outbox[i].status) {
          outbox := outbox[i := outbox[i].(status := Superseded)];
        }
      }
      assert outbox == SupersedeDependents(s, c).rows;
    }
  }

  lemma {:induction false} FailedStays(b: Batch, ms: seq<Mutation>, n: nat)
    requires n <= |ms| && EnqueueAll(b, ms[..n]) == Failed
    ensures EnqueueAll(b, ms) == Failed
    decreases |ms|
  {
    if n == |ms| {
      assert ms[..n] == ms;
    } else {
      var init := ms[..|ms| - 1];
      assert init[..n] == ms[..n];
      FailedStays(b, init, n);
    }
  }

  lemma {:induction false} RowsOnly(b: Batch, ms: seq<Mutation>)
    requires b.Running? && EnqueueAll(b, ms).Running?
    ensures EnqueueAll(b, ms).s == b.s.(rows := EnqueueAll(b, ms).s.rows)
  {
    if ms != [] {
      RowsOnly(b, ms[..|ms| - 1]);
    }
  }
}
