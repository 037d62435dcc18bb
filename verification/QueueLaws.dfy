// Laws of the task queue over whole runs, from the invariant of Protocol.
module QueueLaws {
  import opened Options
  import opened Tasks
  import opened Protocol

  // ----- What each statement can touch

  ghost predicate Edge(op: Op, before: Status, after: Status) {
    match op
    case Claim(_, _, _, _, _) => before == Pending && after == Transcribing
    case Renew(_, _, _) => before.InFlight() && after == before
    case MarkSummarizing(_, _, _) => before.InFlight() && after == Summarizing
    case MarkDone(_, _, _) => before.InFlight() && after == Done
    case MarkFailure(_, _, _, _) => before.InFlight() && (after == Pending || after == Failed)
    case Requeue(_) => before == Failed && after == Pending
    case Reclaim(_, _, _, _, _) => before.InFlight() && after == Pending
    case ResetAborted(_, _, _) => before.InFlight() && after == Pending
    case _ => false
  }

  lemma AppliedRow(op: Op, s: State, id: TaskId)
    requires id in s.rows && (op.Create? ==> id != op.id)
    ensures
      if op == Delete(s.rows[id].recording) then id !in Apply(op, s).rows
      else id in Apply(op, s).rows && Apply(op, s).rows[id] == RowAfter(op, s.now, id, s.rows[id])
  {
  }

  lemma EdgeOf(op: Op, now: Time, id: TaskId, r: Row)
    requires LockShape(r) && Where(op, id, r) && !op.Delete?
    requires op.Claim? ==> r.status == Pending
    ensures
      var q := Set(op, now, r);
      && Edge(op, r.status, q.status)
      && q.recording == r.recording && q.createdAt == r.createdAt
      && q.updatedAt == (if op.Claim? || op.Reclaim? then op.at else now)
  {
  }

  // The status-less guards are enough: whatever a statement changes lies on
  // an edge of the state machine, is stamped with the transaction's time, and
  // keeps the identity of the row.
  lemma StatementsFollowEdges(maxRetries: nat, op: Op, s: State, id: TaskId)
    requires Inv(maxRetries, s) && Legal(maxRetries, op, s) && id in s.rows
    ensures
      var rows := Apply(op, s).rows;
      if id !in rows then op == Delete(s.rows[id].recording)
      else
        var r, q := s.rows[id], rows[id];
        || q == r
        || (&& Edge(op, r.status, q.status)
            && q.recording == r.recording && q.createdAt == r.createdAt
            && q.updatedAt == (if op.Claim? || op.Reclaim? then op.at else s.now))
  {
    AppliedRow(op, s, id);
    assert RowInv(maxRetries, s.now, s.rows[id], s.log[id]);
    if Where(op, id, s.rows[id]) && !op.Delete? {
      EdgeOf(op, s.now, id, s.rows[id]);
    }
  }

  lemma OwnerGuardsMissIdleRows(maxRetries: nat, op: Op, s: State, id: TaskId)
    requires Inv(maxRetries, s) && id in s.rows && !s.rows[id].status.InFlight()
    requires op.Renew? || op.MarkSummarizing? || op.MarkDone? || op.MarkFailure?
    ensures Apply(op, s).rows[id] == s.rows[id]
    ensures id == op.id ==> Apply(op, s).rows == s.rows
  {
  }

  // ----- Over runs

  lemma {:induction false} DoneIsForever(maxRetries: nat, ops: seq<Op>, s: State, id: TaskId)
    requires Inv(maxRetries, s) && LegalRun(maxRetries, ops, s)
    requires id in s.rows && s.rows[id].status == Done
    ensures id in Run(ops, s).rows ==> Run(ops, s).rows[id] == s.rows[id]
    decreases |ops|
  {
    if ops != [] {
      var t := Apply(ops[0], s);
      InvStep(maxRetries, ops[0], s);
      StatementsFollowEdges(maxRetries, ops[0], s, id);
      if id in t.rows {
        DoneIsForever(maxRetries, ops[1..], t, id);
      } else {
        GoneIsForever(maxRetries, ops[1..], t, id);
      }
    }
  }

  lemma {:induction false} GoneIsForever(maxRetries: nat, ops: seq<Op>, s: State, id: TaskId)
    requires LegalRun(maxRetries, ops, s)
    requires id in s.log && id !in s.rows
    ensures id in Run(ops, s).log && id !in Run(ops, s).rows
    decreases |ops|
  {
    if ops != [] {
      GoneIsForever(maxRetries, ops[1..], Apply(ops[0], s), id);
    }
  }

  // The three shapes of README, in every reachable state: locks and leases
  // exactly while in flight; a summary exactly when done; a failure count that
  // tells failed tasks from all others.
  lemma {:induction false} EveryReachableRow(maxRetries: nat, ops: seq<Op>, start: Time, id: TaskId)
    requires LegalRun(maxRetries, ops, Empty(start))
    requires id in Run(ops, Empty(start)).rows
    ensures
      var r := Run(ops, Empty(start)).rows[id];
      && (r.status.InFlight() <==> r.lockedBy.Some?)
      && (r.status.InFlight() <==> r.leaseExpiresAt.Some?)
      && (r.status == Done <==> r.summary.Some? && r.summary.value != [])
      && (r.status == Failed <==> r.retryCount == maxRetries + 1)
      && r.retryCount <= maxRetries + 1
  {
    InvRun(maxRetries, ops, Empty(start));
  }

  // ----- Conservation

  function Book(s: State, id: TaskId): Ledger {
    if id in s.log then s.log[id] else Ledger(0, 0, 0, 0, 0, 0, 0, s.now)
  }

  function Releases(l: Ledger): nat {
    l.failures + l.reclaims + l.resets + l.dones
  }

  lemma {:induction false} Conservation(maxRetries: nat, ops: seq<Op>, start: Time, id: TaskId)
    requires LegalRun(maxRetries, ops, Empty(start))
    requires id in Run(ops, Empty(start)).rows
    ensures
      var s := Run(ops, Empty(start));
      var r, l := s.rows[id], Book(s, id);
      && l.claims == Releases(l) + (if r.status.InFlight() then 1 else 0)
      && l.failures == (maxRetries + 1) * l.requeues + r.retryCount
  {
    InvRun(maxRetries, ops, Empty(start));
  }

  // Executions of a task. README's "at most 4" is the case of no requeue,
  // reclaim or reset.
  lemma {:induction false} ExecutionBound(maxRetries: nat, ops: seq<Op>, start: Time, id: TaskId)
    requires LegalRun(maxRetries, ops, Empty(start))
    requires id in Run(ops, Empty(start)).rows
    ensures
      var l := Book(Run(ops, Empty(start)), id);
      && l.claims <= (maxRetries + 1) * (l.requeues + 1) + l.reclaims + l.resets
      && (l.requeues == l.reclaims == l.resets == 0 && maxRetries == 3 ==> l.claims <= 4)
  {
    InvRun(maxRetries, ops, Empty(start));
    var l := Book(Run(ops, Empty(start)), id);
    assert (maxRetries + 1) * (l.requeues + 1) == (maxRetries + 1) * l.requeues + (maxRetries + 1);
  }

  lemma FailedLedger(maxRetries: nat, s: State, id: TaskId)
    requires Inv(maxRetries, s) && id in s.rows && s.rows[id].status == Failed
    ensures Book(s, id).failures == (maxRetries + 1) * (Book(s, id).requeues + 1)
  {
    var l := s.log[id];
    assert RowInv(maxRetries, s.now, s.rows[id], l);
    assert (maxRetries + 1) * (l.requeues + 1) == (maxRetries + 1) * l.requeues + (maxRetries + 1);
  }

  lemma OneOp(maxRetries: nat, op: Op, s: State)
    requires Legal(maxRetries, op, s)
    ensures LegalRun(maxRetries, [op], s) && Run([op], s) == Apply(op, s)
  {
    assert [op][1..] == [];
  }

  lemma {:induction false} RunConcat(maxRetries: nat, a: seq<Op>, b: seq<Op>, s: State)
    requires LegalRun(maxRetries, a, s) && LegalRun(maxRetries, b, Run(a, s))
    ensures LegalRun(maxRetries, a + b, s) && Run(a + b, s) == Run(b, Run(a, s))
    decreases |a|
  {
    if a == [] {
      assert a + b == b;
    } else {
      RunConcat(maxRetries, a[1..], b, Apply(a[0], s));
      assert (a + b)[1..] == a[1..] + b;
    }
  }

  // The bound is reached, whatever the counts. The witnesses have one task,
  // which waits, or is held by "w" under a lease of one second.

  // How often the one task was claimed, and what came of it.
  datatype Counts = Counts(failures: nat, requeues: nat, reclaims: nat, resets: nat)

  predicate Counted(s: State, c: Counts, claims: nat) {
    && s.rows.Keys == s.log.Keys == {0}
    && var l := s.log[0];
       && l.failures == c.failures && l.requeues == c.requeues && l.reclaims == c.reclaims && l.resets == c.resets
       && l.claims == claims
  }

  function Tries(c: Counts): nat {
    c.failures + c.reclaims + c.resets
  }

  // The task waits, having failed k times since its last requeue.
  ghost predicate Waiting(s: State, k: nat, c: Counts) {
    Counted(s, c, Tries(c)) && s.rows[0].status == Pending && s.rows[0].retryCount == k
  }

  ghost predicate Exhausted(s: State, c: Counts) {
    Counted(s, c, Tries(c)) && s.rows[0].status == Failed
  }

  ghost predicate Held(s: State, k: nat, c: Counts) {
    && Counted(s, c, Tries(c) + 1) && s.rows[0].status == Transcribing && s.rows[0].retryCount == k
    && s.rows[0].lockedBy == Some("w") && s.rows[0].leaseExpiresAt == Some(s.now + 1.0)
  }

  ghost predicate Yields(maxRetries: nat, ops: seq<Op>, s: State, t: State) {
    LegalRun(maxRetries, ops, s) && Run(ops, s) == t
  }

  lemma OneMore(maxRetries: nat, ops: seq<Op>, s: State, t: State, op: Op) returns (more: seq<Op>)
    requires Yields(maxRetries, ops, s, t) && Legal(maxRetries, op, t)
    ensures Yields(maxRetries, more, s, Apply(op, t))
  {
    OneOp(maxRetries, op, t);
    RunConcat(maxRetries, ops, [op], s);
    more := ops + [op];
  }

  // However long it must wait, it can be claimed.
  lemma ClaimWaiting(maxRetries: nat, ops: seq<Op>, s: State, t: State, k: nat, c: Counts)
    returns (more: seq<Op>, u: State)
    requires Yields(maxRetries, ops, s, t) && Waiting(t, k, c)
    ensures Yields(maxRetries, more, s, u) && Held(u, k, c)
  {
    var wait := Tick(if t.rows[0].nextRetryAt > t.now then t.rows[0].nextRetryAt - t.now else 0.0);
    var due := Apply(wait, t);
    more := OneMore(maxRetries, ops, s, t, wait);
    more, u := ClaimDue(maxRetries, more, s, due, k, c);
  }

  lemma ClaimDue(maxRetries: nat, ops: seq<Op>, s: State, t: State, k: nat, c: Counts)
    returns (more: seq<Op>, u: State)
    requires Yields(maxRetries, ops, s, t) && Waiting(t, k, c) && t.rows[0].nextRetryAt <= t.now
    ensures Yields(maxRetries, more, s, u) && Held(u, k, c)
  {
    var claim := Claim({0}, 1, "w", 1.0, t.now);
    more := OneMore(maxRetries, ops, s, t, claim);
    u := Apply(claim, t);
  }

  lemma ResetHeld(maxRetries: nat, ops: seq<Op>, s: State, t: State, k: nat, c: Counts)
    returns (more: seq<Op>, u: State)
    requires Yields(maxRetries, ops, s, t) && Held(t, k, c)
    ensures Yields(maxRetries, more, s, u) && Waiting(u, k, c.(resets := c.resets + 1))
  {
    var op := ResetAborted({0}, "w", "");
    more := OneMore(maxRetries, ops, s, t, op);
    u := Apply(op, t);
  }

  lemma ReclaimHeld(maxRetries: nat, ops: seq<Op>, s: State, t: State, k: nat, c: Counts)
    returns (more: seq<Op>, u: State)
    requires Yields(maxRetries, ops, s, t) && Held(t, k, c)
    ensures Yields(maxRetries, more, s, u) && Waiting(u, k, c.(reclaims := c.reclaims + 1))
  {
    var lapsed := Apply(Tick(2.0), t);
    more := OneMore(maxRetries, ops, s, t, Tick(2.0));
    var op := Reclaim({0}, "w", false, "", lapsed.now);
    more := OneMore(maxRetries, more, s, lapsed, op);
    u := Apply(op, lapsed);
  }

  lemma FailHeld(maxRetries: nat, ops: seq<Op>, s: State, t: State, k: nat, c: Counts)
    returns (more: seq<Op>, u: State)
    requires Yields(maxRetries, ops, s, t) && Held(t, k, c)
    ensures Yields(maxRetries, more, s, u)
    ensures
      var d := c.(failures := c.failures + 1);
      if k < maxRetries then Waiting(u, k + 1, d) else Exhausted(u, d)
  {
    var op := Op.MarkFailure(0, "w", "", maxRetries);
    more := OneMore(maxRetries, ops, s, t, op);
    u := Apply(op, t);
  }

  lemma RequeueExhausted(maxRetries: nat, ops: seq<Op>, s: State, t: State, c: Counts)
    returns (more: seq<Op>, u: State)
    requires Yields(maxRetries, ops, s, t) && Exhausted(t, c)
    ensures Yields(maxRetries, more, s, u) && Waiting(u, 0, c.(requeues := c.requeues + 1))
  {
    more := OneMore(maxRetries, ops, s, t, Requeue(0));
    u := Apply(Requeue(0), t);
  }

  // The task can come to wait with any counts at all.
  lemma {:induction false} AnyCounts(maxRetries: nat, start: Time, k: nat, q: nat, reclaims: nat, resets: nat)
    returns (ops: seq<Op>, s: State)
    requires k <= maxRetries
    ensures Yields(maxRetries, ops, Empty(start), s)
    ensures Waiting(s, k, Counts((maxRetries + 1) * q + k, q, reclaims, resets))
    decreases q, k, reclaims + resets
  {
    if reclaims > 0 {
      ops, s := AnyCounts(maxRetries, start, k, q, reclaims - 1, resets);
      var c := Counts((maxRetries + 1) * q + k, q, reclaims - 1, resets);
      ops, s := ClaimWaiting(maxRetries, ops, Empty(start), s, k, c);
      ops, s := ReclaimHeld(maxRetries, ops, Empty(start), s, k, c);
    } else if resets > 0 {
      ops, s := AnyCounts(maxRetries, start, k, q, reclaims, resets - 1);
      var c := Counts((maxRetries + 1) * q + k, q, reclaims, resets - 1);
      ops, s := ClaimWaiting(maxRetries, ops, Empty(start), s, k, c);
      ops, s := ResetHeld(maxRetries, ops, Empty(start), s, k, c);
    } else if k > 0 {
      ops, s := AnyCounts(maxRetries, start, k - 1, q, 0, 0);
      var c := Counts((maxRetries + 1) * q + (k - 1), q, 0, 0);
      ops, s := ClaimWaiting(maxRetries, ops, Empty(start), s, k - 1, c);
      ops, s := FailHeld(maxRetries, ops, Empty(start), s, k - 1, c);
    } else if q > 0 {
      ops, s := AnyCounts(maxRetries, start, maxRetries, q - 1, 0, 0);
      ops, s := FailForGood(maxRetries, ops, Empty(start), s, q - 1, 0, 0);
      ops, s := RequeueExhausted(maxRetries, ops, Empty(start), s, Counts((maxRetries + 1) * q, q - 1, 0, 0));
    } else {
      OneOp(maxRetries, Create(0, 0), Empty(start));
      ops, s := [Create(0, 0)], Apply(Create(0, 0), Empty(start));
    }
  }

  lemma FailForGood(maxRetries: nat, ops: seq<Op>, s: State, t: State, q: nat, reclaims: nat, resets: nat)
    returns (more: seq<Op>, u: State)
    requires Yields(maxRetries, ops, s, t)
    requires Waiting(t, maxRetries, Counts((maxRetries + 1) * q + maxRetries, q, reclaims, resets))
    ensures Yields(maxRetries, more, s, u) && Exhausted(u, Counts((maxRetries + 1) * (q + 1), q, reclaims, resets))
  {
    var c := Counts((maxRetries + 1) * q + maxRetries, q, reclaims, resets);
    more, u := ClaimWaiting(maxRetries, ops, s, t, maxRetries, c);
    more, u := FailHeld(maxRetries, more, s, u, maxRetries, c);
    assert (maxRetries + 1) * (q + 1) == (maxRetries + 1) * q + maxRetries + 1;
  }

  // A run after which task `id` has been requeued, reclaimed and reset this often.
  ghost predicate RunWith(maxRetries: nat, ops: seq<Op>, start: Time, id: TaskId, q: nat, reclaims: nat, resets: nat) {
    && LegalRun(maxRetries, ops, Empty(start)) && id in Run(ops, Empty(start)).rows
    && var l := Book(Run(ops, Empty(start)), id);
       l.requeues == q && l.reclaims == reclaims && l.resets == resets
  }

  // The bound of ExecutionBound is exact for all counts.
  lemma {:induction false} ExecutionBoundReached(maxRetries: nat, start: Time, q: nat, reclaims: nat, resets: nat)
    returns (ops: seq<Op>)
    ensures RunWith(maxRetries, ops, start, 0, q, reclaims, resets)
    ensures Book(Run(ops, Empty(start)), 0).claims == (maxRetries + 1) * (q + 1) + reclaims + resets
  {
    var s: State;
    ops, s := AnyCounts(maxRetries, start, maxRetries, q, reclaims, resets);
    ops, s := FailForGood(maxRetries, ops, Empty(start), s, q, reclaims, resets);
  }

  // README's "at most 4 executions" (maxRetries is 3) holds of the tasks with
  // given counts if and only if they were never requeued, reclaimed or reset.
  lemma {:induction false} DocumentedBoundIff(maxRetries: nat, start: Time, q: nat, reclaims: nat, resets: nat)
    ensures
      (forall ops, id :: RunWith(maxRetries, ops, start, id, q, reclaims, resets) ==>
        Book(Run(ops, Empty(start)), id).claims <= maxRetries + 1) <==> q == reclaims == resets == 0
  {
    if q == reclaims == resets == 0 {
      forall ops, id | RunWith(maxRetries, ops, start, id, q, reclaims, resets)
        ensures Book(Run(ops, Empty(start)), id).claims <= maxRetries + 1
      {
        ExecutionBound(maxRetries, ops, start, id);
      }
    } else {
      var ops := ExecutionBoundReached(maxRetries, start, q, reclaims, resets);
      assert (maxRetries + 1) * (q + 1) == (maxRetries + 1) * q + (maxRetries + 1);
      assert (maxRetries + 1) * q >= q;
    }
  }

  // Reclaims alone suffice: for every n some run claims a task n times though it
  // never failed.
  lemma {:induction false} ExecutionsUnbounded(maxRetries: nat, n: nat) returns (ops: seq<Op>)
    ensures RunWith(maxRetries, ops, 0.0, 0, 0, n, 0)
    ensures Book(Run(ops, Empty(0.0)), 0).claims == n && Book(Run(ops, Empty(0.0)), 0).failures == 0
  {
    var s: State;
    ops, s := AnyCounts(maxRetries, 0.0, 0, 0, n, 0);
  }

  lemma {:induction false} FailuresBetweenRequeues(maxRetries: nat, s: State, ops: seq<Op>, id: TaskId)
    requires Inv(maxRetries, s) && id in s.rows && s.rows[id].status == Failed
    requires LegalRun(maxRetries, ops, Apply(Requeue(id), s))
    requires
      var t := Run(ops, Apply(Requeue(id), s));
      && id in t.rows && t.rows[id].status == Failed
      && Book(t, id).requeues == Book(s, id).requeues + 1
    ensures Book(Run(ops, Apply(Requeue(id), s)), id).failures == Book(s, id).failures + (maxRetries + 1)
  {
    InvStep(maxRetries, Requeue(id), s);
    InvRun(maxRetries, ops, Apply(Requeue(id), s));
    FailedLedger(maxRetries, s, id);
    FailedLedger(maxRetries, Run(ops, Apply(Requeue(id), s)), id);
    var n := Book(s, id).requeues;
    assert (maxRetries + 1) * (n + 1 + 1) == (maxRetries + 1) * (n + 1) + (maxRetries + 1);
  }

  // A statement that takes task `id` away from the worker holding it.
  ghost predicate ReleasesTask(op: Op, s: State, id: TaskId) {
    && id in s.rows && s.rows[id].status.InFlight() && Where(op, id, s.rows[id])
    && (op.MarkDone? || op.MarkFailure? || op.Reclaim? || op.ResetAborted?)
  }

  lemma StillHeld(maxRetries: nat, op: Op, s: State, id: TaskId)
    requires Inv(maxRetries, s) && Legal(maxRetries, op, s)
    requires id in s.rows && s.rows[id].status.InFlight()
    requires !ReleasesTask(op, s, id) && op != Delete(s.rows[id].recording)
    ensures id in Apply(op, s).rows
    ensures
      var r, q := s.rows[id], Apply(op, s).rows[id];
      q.status.InFlight() && q.lockedBy == r.lockedBy && q.recording == r.recording
  {
    AppliedRow(op, s, id);
  }

  lemma {:induction false} HeldUntilReleased(maxRetries: nat, ops: seq<Op>, s: State, id: TaskId) returns (k: nat)
    requires Inv(maxRetries, s) && LegalRun(maxRetries, ops, s)
    requires id in s.rows && s.rows[id].status.InFlight()
    ensures k <= |ops| && id in Run(ops[..k], s).rows
    ensures
      var r, q := s.rows[id], Run(ops[..k], s).rows[id];
      q.status.InFlight() && q.lockedBy == r.lockedBy && q.recording == r.recording
    ensures k == |ops| || ReleasesTask(ops[k], Run(ops[..k], s), id) || ops[k] == Delete(s.rows[id].recording)
    decreases |ops|
  {
    if ops == [] || ReleasesTask(ops[0], s, id) || ops[0] == Delete(s.rows[id].recording) {
      k := 0;
    } else {
      var t := Apply(ops[0], s);
      StillHeld(maxRetries, ops[0], s, id);
      InvStep(maxRetries, ops[0], s);
      var j := HeldUntilReleased(maxRetries, ops[1..], t, id);
      k := j + 1;
      RunCons(ops, s, k);
    }
  }

  lemma RunCons(ops: seq<Op>, s: State, k: nat)
    requires 0 < k <= |ops|
    ensures Run(ops[..k], s) == Run(ops[1..][..k - 1], Apply(ops[0], s))
  {
    assert ops[..k][1..] == ops[1..][..k - 1];
  }

  // No task is claimed twice without a release in between.
  lemma {:induction false} NoDoubleClaim(maxRetries: nat, s: State, first: Op, ops: seq<Op>, second: Op, id: TaskId)
    requires Inv(maxRetries, s) && first.Claim? && second.Claim? && id in first.ids && id in second.ids
    requires LegalRun(maxRetries, [first] + ops, s)
    requires Legal(maxRetries, second, Run([first] + ops, s))
    ensures exists k: nat :: k < |ops| && ReleasesTask(ops[k], Run(ops[..k], Apply(first, s)), id)
  {
    var t := Apply(first, s);
    assert ([first] + ops)[1..] == ops;
    InvStep(maxRetries, first, s);
    var k := HeldUntilReleased(maxRetries, ops, t, id);
    RunSplit(maxRetries, ops, t, k);
    if k < |ops| && ops[k] == Delete(t.rows[id].recording) {
      DeletedIsGone(maxRetries, ops[k..], Run(ops[..k], t), id);
    }
  }

  lemma DeletedIsGone(maxRetries: nat, ops: seq<Op>, s: State, id: TaskId)
    requires Inv(maxRetries, s) && LegalRun(maxRetries, ops, s)
    requires ops != [] && id in s.rows && ops[0] == Delete(s.rows[id].recording)
    ensures id !in Run(ops, s).rows
  {
    GoneIsForever(maxRetries, ops[1..], Apply(ops[0], s), id);
  }

  lemma {:induction false} RunSplit(maxRetries: nat, ops: seq<Op>, s: State, k: nat)
    requires k <= |ops| && LegalRun(maxRetries, ops, s)
    ensures LegalRun(maxRetries, ops[..k], s)
    ensures LegalRun(maxRetries, ops[k..], Run(ops[..k], s))
    ensures Run(ops, s) == Run(ops[k..], Run(ops[..k], s))
    ensures Inv(maxRetries, s) ==> Inv(maxRetries, Run(ops[..k], s))
    decreases |ops|
  {
    if k > 0 {
      RunSplit(maxRetries, ops[1..], Apply(ops[0], s), k - 1);
      assert ops[..k][1..] == ops[1..][..k - 1];
      assert ops[1..][k - 1..] == ops[k..];
    } else {
      assert ops[0..] == ops;
    }
    if Inv(maxRetries, s) {
      InvRun(maxRetries, ops[..k], s);
    }
  }

  lemma {:induction false} RowIdentity(maxRetries: nat, ops: seq<Op>, s: State, id: TaskId)
    requires Inv(maxRetries, s) && LegalRun(maxRetries, ops, s) && id in s.rows
    ensures id in Run(ops, s).log
    ensures id in Run(ops, s).rows ==>
      var r, q := s.rows[id], Run(ops, s).rows[id];
      q.recording == r.recording && q.createdAt == r.createdAt
    decreases |ops|
  {
    if ops != [] {
      var t := Apply(ops[0], s);
      InvStep(maxRetries, ops[0], s);
      StatementsFollowEdges(maxRetries, ops[0], s, id);
      if id in t.rows {
        RowIdentity(maxRetries, ops[1..], t, id);
      } else {
        GoneIsForever(maxRetries, ops[1..], t, id);
      }
    }
  }

  // ----- Time

  lemma FailsOnlyAfterBackoff(maxRetries: nat, op: Op, s: State, id: TaskId)
    requires Inv(maxRetries, s) && Legal(maxRetries, op, s)
    requires id in s.rows && s.rows[id].status != Failed
    requires id in Apply(op, s).rows && Apply(op, s).rows[id].status == Failed
    ensures op.MarkFailure? && s.rows[id].retryCount == maxRetries
    ensures s.now >= Book(s, id).epochStart + Served(maxRetries)
    ensures Book(s, id).epochStart >= s.rows[id].createdAt
  {
    AppliedRow(op, s, id);
    assert RowInv(maxRetries, s.now, s.rows[id], s.log[id]);
  }

  // No task becomes failed sooner than 2 + 4 + ... + 2^maxRetries seconds after
  // its creation or last requeue, however often it was reclaimed or reset.
  lemma {:induction false} BackoffLowerBound(maxRetries: nat, ops: seq<Op>, op: Op, start: Time, id: TaskId)
    requires LegalRun(maxRetries, ops, Empty(start))
    requires
      var s := Run(ops, Empty(start));
      && Legal(maxRetries, op, s) && id in s.rows && s.rows[id].status != Failed
      && id in Apply(op, s).rows && Apply(op, s).rows[id].status == Failed
    ensures
      var s := Run(ops, Empty(start));
      && op.MarkFailure?
      && s.now >= Book(s, id).epochStart + (Power2(maxRetries + 1) - 2.0)
      && Book(s, id).epochStart >= s.rows[id].createdAt
      && (maxRetries == 3 ==> s.now >= Book(s, id).epochStart + 14.0)
  {
    InvRun(maxRetries, ops, Empty(start));
    FailsOnlyAfterBackoff(maxRetries, op, Run(ops, Empty(start)), id);
    assert Served(3) == 14.0;
  }

  // A task that waits is due at once, except after its nth failure in a row:
  // then exactly 2^n seconds later.
  lemma NextAttempt(maxRetries: nat, op: Op, s: State, id: TaskId, t: Time)
    requires Inv(maxRetries, s) && Legal(maxRetries, op, s)
    requires if op.Create? then id == op.id else id in s.rows && Where(op, id, s.rows[id])
    requires id in Apply(op, s).rows && Apply(op, s).rows[id].status == Pending
    ensures
      var freed := if op.Reclaim? then op.at else s.now;
      var wait := if op.MarkFailure? then Power2(s.rows[id].retryCount + 1) else 0.0;
      Due(Apply(op, s).rows[id], t) <==> t >= freed + wait
    ensures op.MarkFailure? ==> 1 <= Apply(op, s).rows[id].retryCount <= maxRetries
    ensures Power2(1) == 2.0 && Power2(2) == 4.0 && Power2(3) == 8.0
  {
    if !op.Create? {
      AppliedRow(op, s, id);
      assert RowInv(maxRetries, s.now, s.rows[id], s.log[id]);
    }
  }

  // A lapsed lease leaves no task stuck: the reclaim makes the row claimable in
  // the same transaction, and spends no retry.
  lemma LapsedBecomesClaimable(maxRetries: nat, s: State, worker: WorkerId, error: string, at: Time, limit: int, lease: Time, id: TaskId)
    requires Inv(maxRetries, s) && id in s.rows && at <= s.now && 0.0 <= lease && limit >= 1
    requires s.rows[id].status.InFlight() && LeaseExpired(s.rows[id], at)
    ensures
      var reclaim := Reclaim(s.rows.Keys, worker, false, error, at);
      var t := Apply(reclaim, s);
      && Legal(maxRetries, reclaim, s)
      && t.rows[id].status == Pending && t.rows[id].retryCount == s.rows[id].retryCount
      && Legal(maxRetries, Claim({id}, limit, worker, lease, at), t)
      && (forall other :: other in s.rows && !(s.rows[other].status.InFlight() && LeaseExpired(s.rows[other], at))
            ==> t.rows[other] == s.rows[other])
  {
  }
}
