/** Sending the outbox: the loop that drives the store's transactions against the server, past refusals. */
module OutboxDrain {
  import opened Ids
  import opened Outbox
  import opened OutboxChain
  import opened OutboxEnqueue
  import opened OutboxProgress
  import opened OutboxStore

  /** What comes of a refusal: a conflict copy is staged, the kind of conflict is not supported, staging fails, or a
      pull must come first. */
  datatype Staging = CopyStaged | Unsupported | StagingFailed | AwaitsPull

  /** What one round meets: whether the server objects to the operation for another reason than its base, and what comes
      of a refusal. */
  datatype Turn = Turn(objects: bool, staging: Staging)

  datatype Outcome = Idle | Halted

  function Answered(heads: map<Uuid, nat>, m: Mutation, objects: bool): Answer {
    if objects then Rejected else Judge(heads, m)
  }

  /** The server, reduced to the revision of each object. */
  class Server {
    var heads: map<Uuid, nat>

    constructor (heads: map<Uuid, nat>)
      ensures this.heads == heads
    {
      this.heads := heads;
    }

    method Submit(m: Mutation, objects: bool) returns (answer: Answer)
      modifies this
      ensures answer == Answered(old(heads), m, objects)
              && heads == if objects then old(heads) else Advance(old(heads), m)
    {
      var head := if m.obj in heads then heads[m.obj] else 0;
      if objects || head != m.base {
        return Rejected;
      }
      heads := heads[m.obj := m.base + 1];
      answer := AcceptedAt(m.base + 1);
    }
  }

  /** What the drain does when every answer is an acceptance: one round for each queued operation. */
  ghost predicate Drained(before: State, after: State, heads: map<Uuid, nat>, rounds: nat) {
    && rounds == QueueLength(before, |before.rows|)
    && NothingQueued(after)
    && (forall o :: Baseline(after, o) == Projected(before, o) && Head(heads, o) == Projected(before, o))
  }

  predicate NothingReady(s: State) {
    forall j :: 0 <= j < |s.rows| ==> !Ready(s, j)
  }

  predicate NothingQueued(s: State) {
    forall j :: 0 <= j < |s.rows| ==> !Queued(s.rows[j].status)
  }

  /** The server objects to nothing but outdated bases. */
  ghost predicate NoObjections(turns: nat -> Turn) {
    forall k :: !turns(k).objects
  }

  /** Every refusal gets its conflict copy. */
  ghost predicate AllStaged(turns: nat -> Turn) {
    forall k :: turns(k).staging == CopyStaged
  }

  lemma TurnIs(turns: nat -> Turn, k: nat)
    ensures NoObjections(turns) ==> !turns(k).objects
    ensures AllStaged(turns) ==> turns(k).staging == CopyStaged
  {
  }

  lemma NothingReadyIf(s: State, i: nat)
    requires i == |s.rows| && forall j :: 0 <= j < i ==> !Ready(s, j)
    ensures NothingReady(s)
  {
    hide Ready;
  }

  /** One round of the drain keeps what the drain relies on and counts down the queue. */
  ghost predicate Draining(before: State, now: State, heads: map<Uuid, nat>, rounds: nat) {
    && Sendable(now, heads) && |now.rows| == |before.rows|
    && rounds + QueueLength(now, |now.rows|) == QueueLength(before, |before.rows|)
    && forall o :: Projected(now, o) == Projected(before, o)
  }

  lemma DrainingStarts(s: State, heads: map<Uuid, nat>)
    requires Sendable(s, heads)
    ensures Draining(s, s, heads, 0)
  {
    hide Sendable, Projected, QueueLength;
  }

  lemma DrainStep(before: State, s: State, heads: map<Uuid, nat>, rounds: nat, i: nat)
    requires Draining(before, s, heads, rounds) && Ready(s, i)
    ensures Draining(before, Round(s, heads, i), Advance(heads, s.rows[i].m), rounds + 1)
            && Judge(heads, s.rows[i].m) != Rejected
    ensures Recordable(Attempt(s, s.rows[i].m.op), s.rows[i].m.op, Judge(heads, s.rows[i].m))
    ensures QueueLength(Round(s, heads, i), |s.rows|) < QueueLength(s, |s.rows|)
  {
    hide Sendable, Round, Advance, Ready, Projected, QueueLength;
    RoundKeeps(s, heads, i);
    RoundAccepts(s, heads, i);
  }

  lemma DrainEnds(before: State, s: State, heads: map<Uuid, nat>, rounds: nat)
    requires Draining(before, s, heads, rounds) && NothingReady(s)
    ensures Drained(before, s, heads, rounds)
  {
    FromInvariant(s, 0);
    if FirstQueued(s, |s.rows|) < |s.rows| {
      FirstIsReady(s);
      assert false;
    }
    LengthPositive(s, |s.rows|);
    forall o
      ensures Baseline(s, o) == Projected(before, o) && Head(heads, o) == Projected(before, o)
    {
      EmptyCount(s, o, |s.rows|);
    }
  }

  lemma RecordableFits(s: State, heads: map<Uuid, nat>, i: nat)
    requires i < |s.rows| && WellFormed(s) && Judge(heads, s.rows[i].m) != Rejected
    requires Recordable(Attempt(s, s.rows[i].m.op), s.rows[i].m.op, Judge(heads, s.rows[i].m))
    ensures s.rows[i].m.base + 1 <= MAX_INT64
  {
  }

  lemma DrainRound(before: State, s: State, heads: map<Uuid, nat>, rounds: nat, i: nat, t: State, recorded: bool)
    requires i < |s.rows| && Ready(s, i) && WellFormed(s)
    requires t == Record(Attempt(s, s.rows[i].m.op), s.rows[i].m.op, Judge(heads, s.rows[i].m))
    requires recorded == Recordable(Attempt(s, s.rows[i].m.op), s.rows[i].m.op, Judge(heads, s.rows[i].m))
    ensures t == Round(s, heads, i) && WellFormed(t) && (Invariant(s) ==> Invariant(t))
    ensures recorded && Judge(heads, s.rows[i].m) != Rejected ==> QueueLength(t, |t.rows|) < QueueLength(s, |s.rows|)
    ensures Draining(before, s, heads, rounds) ==>
              Draining(before, t, Advance(heads, s.rows[i].m), rounds + 1) && Judge(heads, s.rows[i].m) != Rejected
                  && recorded
  {
    if recorded && Judge(heads, s.rows[i].m) != Rejected {
      RecordableFits(s, heads, i);
    }
    hide *;
    RoundIs(s, heads, i);
    RoundInvariant(s, heads, i);
    if recorded && Judge(heads, s.rows[i].m) != Rejected {
      RoundShrinks(s, heads, i);
    }
    if Draining(before, s, heads, rounds) {
      DrainStep(before, s, heads, rounds, i);
    }
  }

  // ---------------------------------------------------------------- past a refusal

  /** What a queued operation still waits for is itself queued. */
  predicate Unimpeded(s: State) {
    forall i, j :: 0 <= j < i < |s.rows| && Dep(s, i, j) && Queued(s.rows[i].status) && Unmet(s, j) ==>
      Queued(s.rows[j].status)
  }

  lemma UnimpededIf(s: State)
    requires NoneStuck(s) && NoneStranded(s)
    ensures Unimpeded(s)
  {
    forall i, j | 0 <= j < i < |s.rows| && Dep(s, i, j) && Queued(s.rows[i].status) && Unmet(s, j)
      ensures Queued(s.rows[j].status)
    {
      assert !Stuck(s, j);
    }
  }

  /** The first queued operation of such an outbox is ready. */
  lemma UnimpededFirst(s: State)
    requires Unimpeded(s) && FirstQueued(s, |s.rows|) < |s.rows|
    ensures Outbox.Ready(s, FirstQueued(s, |s.rows|))
  {
    var i := FirstQueued(s, |s.rows|);
    forall j | 0 <= j < i && Dep(s, i, j)
      ensures !Unmet(s, j)
    {
      assert !Queued(s.rows[j].status);
    }
  }

  lemma NothingLeft(s: State)
    requires Unimpeded(s) && NothingReady(s)
    ensures NothingQueued(s)
  {
    if FirstQueued(s, |s.rows|) < |s.rows| {
      UnimpededFirst(s);
      assert false;
    }
  }

  lemma AcceptUnimpeded(s: State, t: State, i: nat)
    requires Unimpeded(s) && i < |s.rows| && t.rows == SetStatus(s, i, Accepted).rows && t.met == s.met
    ensures Unimpeded(t)
  {
    assert forall x: nat, y: nat :: Dep(t, x, y) == Dep(s, x, y);
    assert forall y: nat :: Unmet(t, y) ==> Unmet(s, y) && y != i;
  }

  /** A refused operation and everything behind it leave the queue; the others wait for queued operations as before. */
  lemma RefuseUnimpeded(s: State, i: nat)
    requires WellFormed(s) && Unimpeded(s) && i < |s.rows|
    ensures Unimpeded(SupersedeDependents(SetStatus(s, i, Conflict), s.rows[i].m.op))
  {
    var c, t := s.rows[i].m.op, SetStatus(s, i, Conflict);
    var u := SupersedeDependents(t, c);
    forall x, y | 0 <= y < x < |u.rows| && Dep(u, x, y) && Queued(u.rows[x].status) && Unmet(u, y)
      ensures Queued(u.rows[y].status)
    {
      KeptWaits(s, i, x, y);
    }
  }

  lemma KeptWaits(s: State, i: nat, x: nat, y: nat)
    requires WellFormed(s) && Unimpeded(s) && i < |s.rows| && y < x < |s.rows|
    requires var u := SupersedeDependents(SetStatus(s, i, Conflict), s.rows[i].m.op);
             Dep(u, x, y) && Queued(u.rows[x].status) && Unmet(u, y)
    ensures Queued(SupersedeDependents(SetStatus(s, i, Conflict), s.rows[i].m.op).rows[y].status)
  {
    var c, t := s.rows[i].m.op, SetStatus(s, i, Conflict);
    assert Dep(t, x, y) && Dep(s, x, y);
    DoomedNext(t, c, i, x, y);
    hide Doomed, WellFormed, Dep;
    assert Unmet(s, y);
  }

  lemma DoomedNext(t: State, c: Uuid, i: nat, x: nat, y: nat)
    requires i < |t.rows| && t.rows[i].m.op == c && Dep(t, x, y)
    ensures y == i || Doomed(t, c, y) ==> Doomed(t, c, x)
  {
  }

  lemma {:induction false} SupersedeShortens(s: State, c: Uuid, n: nat)
    requires n <= |s.rows|
    ensures QueueLength(SupersedeDependents(s, c), n) <= QueueLength(s, n)
  {
    hide Doomed;
    if n > 0 {
      SupersedeShortens(s, c, n - 1);
    }
  }

  /** The outbox after a round that ended in a refusal. */
  function RefusedRound(s: State, i: nat, staging: Staging): State
    requires i < |s.rows|
  {
    var t := SetStatus(s, i, Conflict);
    if staging == CopyStaged then SupersedeDependents(t, s.rows[i].m.op) else t
  }

  lemma RefusalRecorded(s: State, i: nat)
    requires WellFormed(s) && Outbox.Ready(s, i)
    ensures var op := s.rows[i].m.op;
            Recordable(Attempt(s, op), op, Rejected)
                && Record(Attempt(s, op), op, Rejected) == SetStatus(s, i, Conflict)
  {
    var op := s.rows[i].m.op;
    IndexIs(s, i, |s.rows|);
    var t := Attempt(s, op);
    OpsKept(s, t);
    IndexIs(t, i, |t.rows|);
    hide WellFormed, IndexOf;
    assert t == SetStatus(s, i, Attempted);
    assert SetStatus(t, i, Conflict).rows == SetStatus(s, i, Conflict).rows;
  }

  lemma RefusedRoundKeeps(s: State, i: nat, staging: Staging)
    requires WellFormed(s) && Outbox.Ready(s, i)
    ensures var t := RefusedRound(s, i, staging);
            && WellFormed(t) && (Invariant(s) ==> Invariant(t)) && |t.rows| == |s.rows|
            && QueueLength(t, |t.rows|) < QueueLength(s, |s.rows|)
            && (staging == CopyStaged && Unimpeded(s) ==> Unimpeded(t))
  {
    var t, op := SetStatus(s, i, Conflict), s.rows[i].m.op;
    OpsKept(s, t);
    assert Queued(s.rows[i].status);
    hide WellFormed, Outbox.Ready, Unimpeded, QueueLength, SetStatus, SupersedeDependents;
    LengthWithout(s, i, Conflict, |s.rows|);
    SupersedeShortens(t, op, |s.rows|);
    SupersededRows(t, op, 0);
    if Unimpeded(s) {
      RefuseUnimpeded(s, i);
    }
    if Invariant(s) {
      RefuseKeeps(s, i, Conflict);
      SupersedeKeeps(t, op);
    }
  }

  // ---------------------------------------------------------------- the loop

  /** What every round keeps, whatever it meets. */
  ghost predicate Going(before: State, now: State, rounds: nat, staged: bool) {
    && WellFormed(now) && (Invariant(before) ==> Invariant(now)) && |now.rows| == |before.rows|
    && rounds + QueueLength(now, |now.rows|) <= QueueLength(before, |before.rows|)
    && (staged && Unimpeded(before) ==> Unimpeded(now))
  }

  lemma AcceptedGoing(before: State, s: State, heads: map<Uuid, nat>, rounds: nat, staged: bool, i: nat, t: State)
    requires Going(before, s, rounds, staged) && Outbox.Ready(s, i) && t == Round(s, heads, i)
             && Judge(heads, s.rows[i].m) != Rejected
    requires Recordable(Attempt(s, s.rows[i].m.op), s.rows[i].m.op, Judge(heads, s.rows[i].m))
    ensures Going(before, t, rounds + 1, staged) && QueueLength(t, |t.rows|) < QueueLength(s, |s.rows|)
  {
    RecordableFits(s, heads, i);
    RoundInvariant(s, heads, i);
    RoundRecords(s, heads, i);
    RoundShrinks(s, heads, i);
    MetSame(s, i);
    hide WellFormed, Invariant, Round, Recordable, RecordAccepted, SetStatus, QueueLength, Unimpeded;
    if Unimpeded(s) {
      AcceptUnimpeded(s, t, i);
    }
  }

  lemma MetSame(s: State, i: nat)
    requires i < |s.rows|
    ensures RecordAccepted(s, i, s.rows[i].m.base + 1).met == s.met
  {
  }

  lemma RefusedGoing(before: State, s: State, rounds: nat, staged: bool, i: nat, staging: Staging)
    requires Going(before, s, rounds, staged) && Outbox.Ready(s, i) && (staged ==> staging == CopyStaged)
    ensures var t := RefusedRound(s, i, staging);
            Going(before, t, rounds + 1, staged) && QueueLength(t, |t.rows|) < QueueLength(s, |s.rows|)
  {
    RefusedRoundKeeps(s, i, staging);
    hide WellFormed, Invariant, RefusedRound, QueueLength, Unimpeded, Outbox.Ready;
  }

  lemma GoingFormed(before: State, now: State, rounds: nat, staged: bool)
    requires Going(before, now, rounds, staged)
    ensures WellFormed(now) && (Invariant(before) ==> Invariant(now)) && rounds <= QueueLength(before, |before.rows|)
  {
    hide WellFormed, Invariant, Unimpeded;
  }

  lemma GoingStarts(s: State, staged: bool)
    requires WellFormed(s)
    ensures Going(s, s, 0, staged)
  {
    hide WellFormed, Invariant, Unimpeded;
  }

  lemma AnswerIs(heads: map<Uuid, nat>, m: Mutation, objects: bool)
    ensures Answered(heads, m, objects) == if objects then Rejected else Judge(heads, m)
  {
  }

  lemma RefusedIs(s: State, i: nat, staging: Staging)
    requires i < |s.rows|
    ensures RefusedRound(s, i, staging)
            == if staging == CopyStaged then SupersedeDependents(SetStatus(s, i, Conflict), s.rows[i].m.op)
              else SetStatus(s, i, Conflict)
  {
  }

  lemma NeverRefused(before: State, s: State, heads: map<Uuid, nat>, rounds: nat, i: nat)
    requires Outbox.Ready(s, i) && Judge(heads, s.rows[i].m) == Rejected
    ensures !Draining(before, s, heads, rounds)
  {
    if Draining(before, s, heads, rounds) {
      DrainStep(before, s, heads, rounds, i);
      assert false;
    }
  }

  lemma UnrecordedRound(before: State, s: State, rounds: nat, staged: bool, i: nat)
    requires rounds > 0 && Going(before, s, rounds - 1, staged) && Outbox.Ready(s, i)
    ensures rounds <= QueueLength(before, |before.rows|) && (Invariant(before) ==> Invariant(s))
  {
    LengthPositive(s, |s.rows|);
    assert Queued(s.rows[i].status);
    hide WellFormed, Invariant, Unimpeded;
  }

  /** What the idle loop leaves. */
  lemma IdleLeaves(before: State, s: State, rounds: nat, staged: bool)
    requires Going(before, s, rounds, staged) && staged && Unimpeded(before)
             && NothingReady(s)
    ensures NothingQueued(s)
  {
    hide WellFormed, Invariant;
    NothingLeft(s);
  }

  // ---------------------------------------------------------------- round by round

  /** The outbox after a round that sends the i-th operation. */
  function Sent(s: State, heads: map<Uuid, nat>, i: nat, turn: Turn): State
    requires i < |s.rows|
  {
    var m := s.rows[i].m;
    if Answered(heads, m, turn.objects) == Rejected then RefusedRound(s, i, turn.staging)
    else Record(Attempt(s, m.op), m.op, Judge(heads, m))
  }

  function HeadsAfter(heads: map<Uuid, nat>, m: Mutation, objects: bool): map<Uuid, nat> {
    if objects then heads else Advance(heads, m)
  }

  /** A folder delete that met a newer revision. */
  predicate DeleteOutdated(heads: map<Uuid, nat>, m: Mutation, turn: Turn) {
    m.otype == Folder && m.kind == Delete && !turn.objects && Judge(heads, m) == Rejected
  }

  /** The loop ends with this round: nothing came of the refusal, a pull must come first, or the acceptance is of no
      revision that can be stored. */
  predicate Halts(heads: map<Uuid, nat>, m: Mutation, turn: Turn) {
    if Answered(heads, m, turn.objects) == Rejected then
      turn.staging == StagingFailed || turn.staging == AwaitsPull || DeleteOutdated(heads, m, turn)
    else m.base >= MAX_INT64
  }

  lemma HaltsIs(heads: map<Uuid, nat>, m: Mutation, turn: Turn)
    ensures Answered(heads, m, turn.objects) == Rejected ==>
      (Halts(heads, m, turn) <==> turn.staging in {StagingFailed, AwaitsPull}
                                  || (m.otype == Folder && m.kind == Delete && !turn.objects))
    ensures Answered(heads, m, turn.objects) != Rejected ==> (Halts(heads, m, turn) <==> m.base >= MAX_INT64)
    ensures Answered(heads, m, turn.objects) != Rejected ==> !turn.objects
  {
  }

  lemma SentIs(s: State, heads: map<Uuid, nat>, i: nat, turn: Turn)
    requires i < |s.rows|
    ensures Answered(heads, s.rows[i].m, turn.objects) == Rejected ==>
              Sent(s, heads, i, turn) == RefusedRound(s, i, turn.staging)
    ensures Answered(heads, s.rows[i].m, turn.objects) != Rejected ==>
              Sent(s, heads, i, turn) == Record(Attempt(s, s.rows[i].m.op), s.rows[i].m.op, Judge(heads, s.rows[i].m))
    ensures HeadsAfter(heads, s.rows[i].m, turn.objects)
            == if turn.objects then heads else Advance(heads, s.rows[i].m)
  {
    hide RefusedRound, Record, Attempt, Advance;
  }

  /** An acceptance of a ready operation is recorded exactly if its revision can be stored. */
  lemma RecordableIff(s: State, heads: map<Uuid, nat>, i: nat)
    requires WellFormed(s) && Outbox.Ready(s, i) && Judge(heads, s.rows[i].m) != Rejected
    ensures Recordable(Attempt(s, s.rows[i].m.op), s.rows[i].m.op, Judge(heads, s.rows[i].m))
            <==> s.rows[i].m.base < MAX_INT64
  {
    if s.rows[i].m.base < MAX_INT64 {
      RoundRecords(s, heads, i);
    }
    if Recordable(Attempt(s, s.rows[i].m.op), s.rows[i].m.op, Judge(heads, s.rows[i].m)) {
      RecordableFits(s, heads, i);
    }
  }

  /** The oldest ready operation from index i on; |rows| when there is none. */
  function FirstReady(s: State, i: nat): (r: nat)
    requires i <= |s.rows|
    ensures i <= r <= |s.rows| && (r < |s.rows| ==> Outbox.Ready(s, r))
    ensures forall j :: i <= j < r ==> !Outbox.Ready(s, j)
    decreases |s.rows| - i
  {
    if i == |s.rows| || Outbox.Ready(s, i) then i else FirstReady(s, i + 1)
  }

  datatype Sending = Sending(s: State, heads: map<Uuid, nat>)

  /** What a round makes of outbox and server. */
  function RoundOf(c: Sending, turn: Turn): Sending {
    var i := FirstReady(c.s, 0);
    if i == |c.s.rows| then c
    else Sending(Sent(c.s, c.heads, i, turn), HeadsAfter(c.heads, c.s.rows[i].m, turn.objects))
  }

  /** Outbox and server after n rounds, if none of them ends the loop. */
  function AfterRounds(c: Sending, turns: nat -> Turn, n: nat): Sending
    decreases n
  {
    if n == 0 then c else RoundOf(AfterRounds(c, turns, n - 1), turns(n - 1))
  }

  /** After n rounds there is an operation to send, and sending it ends the loop or does not. */
  predicate EndsAt(c: Sending, turns: nat -> Turn, n: nat) {
    var now := AfterRounds(c, turns, n);
    var i := FirstReady(now.s, 0);
    i < |now.s.rows| && Halts(now.heads, now.s.rows[i].m, turns(n))
  }

  predicate GoesOnAt(c: Sending, turns: nat -> Turn, n: nat) {
    var now := AfterRounds(c, turns, n);
    var i := FirstReady(now.s, 0);
    i < |now.s.rows| && !Halts(now.heads, now.s.rows[i].m, turns(n))
  }

  lemma RoundAt(c: Sending, turns: nat -> Turn, n: nat, i: nat)
    requires var now := AfterRounds(c, turns, n);
             && Outbox.Ready(now.s, i) && forall j :: 0 <= j < i ==> !Outbox.Ready(now.s, j)
    ensures var now := AfterRounds(c, turns, n);
            && i < |now.s.rows|
            && AfterRounds(c, turns, n + 1)
               == Sending(Sent(now.s, now.heads, i, turns(n)), HeadsAfter(now.heads, now.s.rows[i].m, turns(n).objects))
            && (EndsAt(c, turns, n) <==> Halts(now.heads, now.s.rows[i].m, turns(n)))
            && (GoesOnAt(c, turns, n) <==> !Halts(now.heads, now.s.rows[i].m, turns(n)))
  {
    var now := AfterRounds(c, turns, n);
    assert i < |now.s.rows|;
    hide Outbox.Ready, Sent, HeadsAfter, Halts;
    var r := FirstReady(now.s, 0);
    assert r == i;
  }

  // ---------------------------------------------------------------- when the loop runs through

  /** Every queued operation leads to a revision that can be stored. */
  predicate BasesFit(s: State) {
    forall i :: 0 <= i < |s.rows| && Queued(s.rows[i].status) ==> s.rows[i].m.base < MAX_INT64
  }

  /** Nothing gets queued: the rows are those of s, and what is queued was queued. */
  predicate OnlyLess(s: State, t: State) {
    |t.rows| == |s.rows|
    && forall i :: 0 <= i < |s.rows| ==>
         t.rows[i].m == s.rows[i].m && (Queued(t.rows[i].status) ==> Queued(s.rows[i].status))
  }

  lemma SentOnlyLess(s: State, heads: map<Uuid, nat>, i: nat, turn: Turn)
    requires i < |s.rows| && WellFormed(s) && Outbox.Ready(s, i)
    ensures OnlyLess(s, Sent(s, heads, i, turn)) && WellFormed(Sent(s, heads, i, turn))
  {
    var m := s.rows[i].m;
    SentIs(s, heads, i, turn);
    AnswerIs(heads, m, turn.objects);
    assert Queued(s.rows[i].status);
    hide *;
    if Answered(heads, m, turn.objects) == Rejected {
      RefusedRoundKeeps(s, i, turn.staging);
      RefusedLess(s, i, turn.staging);
    } else {
      RoundInvariant(s, heads, i);
      RoundIs(s, heads, i);
      RecordedLess(s, heads, i);
    }
  }

  lemma RefusedLess(s: State, i: nat, staging: Staging)
    requires i < |s.rows|
    ensures OnlyLess(s, RefusedRound(s, i, staging))
  {
    hide Doomed;
  }

  lemma RecordedLess(s: State, heads: map<Uuid, nat>, i: nat)
    requires i < |s.rows| && Queued(s.rows[i].status)
    ensures OnlyLess(s, Record(Attempt(s, s.rows[i].m.op), s.rows[i].m.op, Judge(heads, s.rows[i].m)))
  {
    hide IndexOf;
  }

  lemma LessTwice(a: State, b: State, c: State)
    requires OnlyLess(a, b) && OnlyLess(b, c)
    ensures OnlyLess(a, c)
  {
  }

  lemma LessSelf(s: State)
    ensures OnlyLess(s, s)
  {
  }

  lemma RoundOfIs(c: Sending, turn: Turn)
    ensures var i := FirstReady(c.s, 0);
            && (i == |c.s.rows| ==> RoundOf(c, turn) == c)
            && (i < |c.s.rows| ==> Outbox.Ready(c.s, i) && RoundOf(c, turn).s == Sent(c.s, c.heads, i, turn))
  {
    hide Sent, HeadsAfter, Outbox.Ready;
  }

  lemma RoundOnlyLess(s: State, now: Sending, turn: Turn)
    requires OnlyLess(s, now.s) && WellFormed(now.s)
    ensures OnlyLess(s, RoundOf(now, turn).s) && WellFormed(RoundOf(now, turn).s)
  {
    hide *;
    RoundOfIs(now, turn);
    var i := FirstReady(now.s, 0);
    if i < |now.s.rows| {
      SentOnlyLess(now.s, now.heads, i, turn);
      LessTwice(s, now.s, RoundOf(now, turn).s);
    }
  }

  lemma {:induction false} RoundsOnlyLess(c: Sending, turns: nat -> Turn, n: nat)
    requires WellFormed(c.s)
    ensures OnlyLess(c.s, AfterRounds(c, turns, n).s) && WellFormed(AfterRounds(c, turns, n).s)
    decreases n
  {
    hide RoundOf, OnlyLess, WellFormed;
    if n == 0 {
      LessSelf(c.s);
    } else {
      RoundsOnlyLess(c, turns, n - 1);
      RoundOnlyLess(c.s, AfterRounds(c, turns, n - 1), turns(n - 1));
    }
  }

  /** After n rounds it is an outdated folder delete's turn. */
  predicate OutdatedAt(c: Sending, turns: nat -> Turn, n: nat) {
    var now := AfterRounds(c, turns, n);
    var i := FirstReady(now.s, 0);
    i < |now.s.rows| && DeleteOutdated(now.heads, now.s.rows[i].m, turns(n))
  }

  /** Something comes of every refusal, or it can be left alone. */
  predicate Handled(turns: nat -> Turn, n: nat) {
    turns(n).staging == CopyStaged || turns(n).staging == Unsupported
  }

  /** With storable revisions, only a refusal ends the loop: one nothing comes of, one that must wait for a pull, or
      that of an outdated folder delete. */
  lemma OnlyRefusalEnds(c: Sending, turns: nat -> Turn, n: nat)
    requires WellFormed(c.s) && BasesFit(c.s) && Handled(turns, n) && !OutdatedAt(c, turns, n)
    ensures !EndsAt(c, turns, n)
  {
    var now := AfterRounds(c, turns, n);
    RoundsOnlyLess(c, turns, n);
    hide WellFormed, AfterRounds;
    var i := FirstReady(now.s, 0);
    if i < |now.s.rows| {
      assert Queued(now.s.rows[i].status);
      assert now.s.rows[i].m.base < MAX_INT64;
    }
  }

  /** Every revision can be stored, something comes of every refusal or it can be left alone, and no folder delete is
      outdated when its turn comes. */
  ghost predicate Unhindered(c: Sending, turns: nat -> Turn) {
    BasesFit(c.s) && (forall n :: Handled(turns, n)) && forall n :: !OutdatedAt(c, turns, n)
  }

  lemma RunsThrough(c: Sending, turns: nat -> Turn, n: nat)
    requires WellFormed(c.s) && EndsAt(c, turns, n)
    ensures !Unhindered(c, turns)
  {
    hide WellFormed, EndsAt, BasesFit, Handled, OutdatedAt;
    if Unhindered(c, turns) {
      OnlyRefusalEnds(c, turns, n);
    }
  }

  ghost predicate GoesOnBelow(c: Sending, turns: nat -> Turn, rounds: nat) {
    forall n :: 0 <= n < rounds ==> GoesOnAt(c, turns, n)
  }

  /** The loop went through these rounds, each but perhaps the last without being ended by it. */
  ghost predicate Ran(c: Sending, turns: nat -> Turn, outcome: Outcome, rounds: nat, now: Sending) {
    && now == AfterRounds(c, turns, rounds)
    && (outcome == Idle ==> GoesOnBelow(c, turns, rounds))
    && (outcome == Halted ==> rounds > 0 && GoesOnBelow(c, turns, rounds - 1) && EndsAt(c, turns, rounds - 1))
  }

  lemma RanStarts(c: Sending, turns: nat -> Turn)
    ensures Ran(c, turns, Idle, 0, c)
  {
  }

  lemma RanIs(c: Sending, turns: nat -> Turn, rounds: nat, now: Sending)
    ensures Ran(c, turns, Idle, rounds, now) <==> now == AfterRounds(c, turns, rounds) && GoesOnBelow(c, turns, rounds)
    ensures Ran(c, turns, Halted, rounds + 1, now) <==>
      now == AfterRounds(c, turns, rounds + 1) && GoesOnBelow(c, turns, rounds) && EndsAt(c, turns, rounds)
  {
    hide AfterRounds, GoesOnBelow, EndsAt;
  }

  lemma GoesOnNext(c: Sending, turns: nat -> Turn, n: nat)
    ensures GoesOnBelow(c, turns, n + 1) <==> GoesOnBelow(c, turns, n) && GoesOnAt(c, turns, n)
  {
    hide GoesOnAt;
  }

  lemma RanNext(c: Sending, turns: nat -> Turn, rounds: nat, now: Sending, i: nat, next: Sending, halted: bool)
    requires Ran(c, turns, Idle, rounds, now) && i < |now.s.rows| && Outbox.Ready(now.s, i)
    requires forall j :: 0 <= j < i ==> !Outbox.Ready(now.s, j)
    requires next == Sending(Sent(now.s, now.heads, i, turns(rounds)),
                             HeadsAfter(now.heads, now.s.rows[i].m, turns(rounds).objects))
    requires halted <==> Halts(now.heads, now.s.rows[i].m, turns(rounds))
    ensures Ran(c, turns, if halted then Halted else Idle, rounds + 1, next)
  {
    hide *;
    RanIs(c, turns, rounds, now);
    RoundAt(c, turns, rounds, i);
    GoesOnNext(c, turns, rounds);
    RanIs(c, turns, rounds + 1, next);
    RanIs(c, turns, rounds, next);
  }

  lemma RanEnds(c: Sending, turns: nat -> Turn, rounds: nat, now: Sending)
    requires WellFormed(c.s) && Ran(c, turns, Halted, rounds, now)
    ensures !Unhindered(c, turns)
  {
    hide WellFormed, EndsAt, GoesOnBelow, AfterRounds, Unhindered;
    RunsThrough(c, turns, rounds - 1);
  }

  /** Without queued folder deletes none is ever outdated. */
  lemma NeverOutdated(c: Sending, turns: nat -> Turn, n: nat)
    requires WellFormed(c.s)
    requires forall i :: 0 <= i < |c.s.rows| && Queued(c.s.rows[i].status) ==>
               !(c.s.rows[i].m.otype == Folder && c.s.rows[i].m.kind == Delete)
    ensures !OutdatedAt(c, turns, n)
  {
    var now := AfterRounds(c, turns, n);
    RoundsOnlyLess(c, turns, n);
    hide WellFormed, AfterRounds;
    var i := FirstReady(now.s, 0);
    if i < |now.s.rows| {
      assert Queued(now.s.rows[i].status);
    }
  }

  /** One round: mark the ready operation, send it, record the answer, and see to a refusal. */
  method SendOne(store: Store, server: Server, i: nat, turn: Turn, ghost before: State, ghost rounds: nat,
                 ghost staged: bool)
    returns (halted: bool)
    requires i < |store.outbox| && Outbox.Ready(store.View(), i) && Going(before, store.View(), rounds, staged)
    requires staged ==> turn.staging == CopyStaged
    modifies store, server
    ensures WellFormed(store.View()) && (Invariant(before) ==> Invariant(store.View()))
            && rounds + 1 <= QueueLength(before, |before.rows|)
    ensures !halted ==> Going(before, store.View(), rounds + 1, staged)
                        && QueueLength(store.View(),
                                       |store.View().rows|) < old(QueueLength(store.View(), |store.View().rows|))
    ensures old(Draining(before, store.View(), server.heads, rounds)) && !turn.objects ==>
              !halted && Draining(before, store.View(), server.heads, rounds + 1)
    ensures halted <==> Halts(old(server.heads), old(store.outbox)[i].m, turn)
    ensures store.View() == Sent(old(store.View()), old(server.heads), i, turn)
    ensures server.heads == HeadsAfter(old(server.heads), old(store.outbox)[i].m, turn.objects)
  {
    ghost var s, heads := store.View(), server.heads;
    assert s.rows == store.outbox;
    hide *;
    var m := store.outbox[i].m;
    GoingFormed(before, s, rounds, staged);
    UnrecordedRound(before, s, rounds + 1, staged, i);
    var marked := store.MarkAttempted(m.op);
    var answer := server.Submit(m, turn.objects);
    var recorded := store.RecordResult(m.op, answer);
    AnswerIs(heads, m, turn.objects);
    HaltsIs(heads, m, turn);
    SentIs(s, heads, i, turn);
    if answer == Rejected {
      RefusalRecorded(s, i);
      RefusedIs(s, i, turn.staging);
      RefusedGoing(before, s, rounds, staged, i, turn.staging);
      if turn.staging == CopyStaged {
        store.SupersedeQueuedDependents(m.op);
      }
      assert store.View() == RefusedRound(s, i, turn.staging);
      GoingFormed(before, store.View(), rounds + 1, staged);
      if !turn.objects {
        NeverRefused(before, s, heads, rounds, i);
      }
      halted := turn.staging in {StagingFailed, AwaitsPull} || (m.otype == Folder && m.kind == Delete && !turn.objects);
    } else {
      DrainRound(before, s, heads, rounds, i, store.View(), recorded);
      RecordableIff(s, heads, i);
      if recorded {
        AcceptedGoing(before, s, heads, rounds, staged, i, store.View());
      }
      halted := !recorded;
    }
  }

  /** Send ready operations until none is left; a refused one becomes a conflict, and the loop goes on unless staging
      fails, a pull must come first, or a folder delete met a newer revision. Every round takes an operation out of the
      queue. If the server holds the revisions the client last saw and objects to nothing, every queued operation is
      accepted in one round each and each object ends at its old projection. If every refusal gets its conflict copy, a
      loop that ends idle leaves nothing queued; and it ends idle if every revision can be stored and no folder delete
      is outdated when its turn comes. */
  method Drain(store: Store, server: Server, turns: nat -> Turn) returns (outcome: Outcome, rounds: nat)
    requires WellFormed(store.View())
    modifies store, server
    ensures WellFormed(store.View()) && (old(Invariant(store.View())) ==> Invariant(store.View()))
    ensures rounds <= QueueLength(old(store.View()), |old(store.outbox)|)
    ensures outcome == Idle ==> NothingReady(store.View())
    ensures old(Sendable(store.View(), server.heads)) && NoObjections(turns) ==>
              outcome == Idle && Drained(old(store.View()), store.View(), server.heads, rounds)
    ensures outcome == Idle && old(Unimpeded(store.View())) && AllStaged(turns) ==> NothingQueued(store.View())
    ensures Ran(Sending(old(store.View()), old(server.heads)), turns, outcome, rounds,
                Sending(store.View(), server.heads))
    ensures Unhindered(Sending(old(store.View()), old(server.heads)), turns) ==> outcome == Idle
  {
    ghost var before := store.View();
    ghost var start := Sending(store.View(), server.heads);
    ghost var sendable := Sendable(before, server.heads) && NoObjections(turns);
    ghost var staged := AllStaged(turns);
    rounds := 0;
    hide *;
    GoingStarts(before, staged);
    RanStarts(start, turns);
    if Sendable(before, server.heads) {
      DrainingStarts(before, server.heads);
    }
    while true
      invariant Going(before, store.View(), rounds, staged)
      invariant sendable ==> Draining(before, store.View(), server.heads, rounds)
      invariant Ran(start, turns, Idle, rounds, Sending(store.View(), server.heads))
      decreases QueueLength(store.View(), |store.View().rows|)
    {
      ghost var s, heads := store.View(), server.heads;
      var i := store.ListReady();
      assert s.rows == store.outbox;
      if i == |store.outbox| {
        NothingReadyIf(s, i);
        if sendable {
          DrainEnds(before, s, heads, rounds);
        }
        GoingFormed(before, s, rounds, staged);
        if staged && Unimpeded(before) {
          IdleLeaves(before, s, rounds, staged);
        }
        return Idle, rounds;
      }
      TurnIs(turns, rounds);
      var halted := SendOne(store, server, i, turns(rounds), before, rounds, staged);
      RanNext(start, turns, rounds, Sending(s, heads), i, Sending(store.View(), server.heads), halted);
      rounds := rounds + 1;
      if halted {
        RanEnds(start, turns, rounds, Sending(store.View(), server.heads));
        return Halted, rounds;
      }
    }
  }
}
