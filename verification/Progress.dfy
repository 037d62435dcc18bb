// How much work a task can take: each accepted claim or mark uses up a unit of
// a measure on (retries left, stage), and only a requeue, a reclaim or a reset
// gives any back.
module Progress {
  import opened Options
  import opened Tasks
  import opened Protocol
  import opened QueueLaws
  import opened Executions

  function Left(maxRetries: nat, r: Row): int {
    match r.status
    case Pending => 3 * (maxRetries + 1 - r.retryCount)
    case Transcribing => 3 * (maxRetries + 1 - r.retryCount) - 1
    case Summarizing => 3 * (maxRetries + 1 - r.retryCount) - 2
    case Done => 0
    case Failed => 0
  }

  function Work(l: Ledger): nat {
    l.claims + l.transcripts + l.dones + l.failures
  }

  function Allowance(maxRetries: nat, l: Ledger): nat {
    3 * ((maxRetries + 1) * (l.requeues + 1)) + 2 * (l.reclaims + l.resets)
  }

  ghost predicate InBudget(maxRetries: nat, s: State) {
    forall id :: id in s.rows && id in s.log ==>
      Work(s.log[id]) + Left(maxRetries, s.rows[id]) <= Allowance(maxRetries, s.log[id])
  }

  // The one status-less mark that could repeat itself is the transcript's.
  ghost predicate MarksOnce(op: Op, s: State) {
    op.MarkSummarizing? && Hits(Some(op), s, op.id) ==> s.rows[op.id].status == Transcribing
  }

  lemma RowBudget(maxRetries: nat, op: Op, s: State, id: TaskId)
    requires Inv(maxRetries, s) && Legal(maxRetries, op, s) && MarksOnce(op, s)
    requires Hits(Some(op), s, id) && !op.Delete?
    requires Work(s.log[id]) + Left(maxRetries, s.rows[id]) <= Allowance(maxRetries, s.log[id])
    ensures
      var l := Tally(op, s.now, s.log[id]);
      Work(l) + Left(maxRetries, Set(op, s.now, s.rows[id])) <= Allowance(maxRetries, l)
  {
    var l := s.log[id];
    assert RowInv(maxRetries, s.now, s.rows[id], l);
    if op.Requeue? {
      assert (maxRetries + 1) * (l.requeues + 1 + 1) == (maxRetries + 1) * (l.requeues + 1) + (maxRetries + 1);
    } else {
      assert Tally(op, s.now, l).requeues == l.requeues;
    }
  }

  lemma BudgetStep(maxRetries: nat, op: Op, s: State)
    requires Inv(maxRetries, s) && Legal(maxRetries, op, s) && InBudget(maxRetries, s) && MarksOnce(op, s)
    ensures InBudget(maxRetries, Apply(op, s))
  {
    var t := Apply(op, s);
    forall id | id in t.rows && id in t.log
      ensures Work(t.log[id]) + Left(maxRetries, t.rows[id]) <= Allowance(maxRetries, t.log[id])
    {
      if Hits(Some(op), s, id) {
        RowBudget(maxRetries, op, s, id);
        assert t.rows[id] == Set(op, s.now, s.rows[id]) && t.log[id] == Tally(op, s.now, s.log[id]);
      } else if op.Create? && id == op.id {
        assert Allowance(maxRetries, t.log[id]) == 3 * ((maxRetries + 1) * 1);
      } else {
        assert t.rows[id] == s.rows[id] && t.log[id] == s.log[id];
      }
    }
  }

  // Each accepted claim or mark brings the task strictly nearer to its end.
  lemma AcceptedWorkDecreases(maxRetries: nat, op: Op, s: State, id: TaskId)
    requires Inv(maxRetries, s) && Legal(maxRetries, op, s) && MarksOnce(op, s)
    requires op.Claim? || op.MarkSummarizing? || op.MarkDone? || op.MarkFailure?
    requires Hits(Some(op), s, id)
    ensures id in Apply(op, s).rows
    ensures 0 <= Left(maxRetries, Apply(op, s).rows[id]) < Left(maxRetries, s.rows[id])
    ensures Left(maxRetries, Apply(op, s).rows[id]) == 0 <==> Apply(op, s).rows[id].status.Terminal()
  {
  }

  lemma ActsMarkOnce(maxRetries: nat, act: Act, s: Sys)
    requires SysInv(maxRetries, s) && Can(maxRetries, act, s)
    ensures Sent(act, s).Some? ==> MarksOnce(Sent(act, s).value, s.base)
  {
    if act.SaveTranscript? {
      FenceIsEpoch(maxRetries, s, act, act.key);
    }
  }

  lemma {:induction false} BudgetRun(maxRetries: nat, acts: seq<Act>, s: Sys)
    requires SysInv(maxRetries, s) && CanRun(maxRetries, acts, s) && InBudget(maxRetries, s.base)
    ensures InBudget(maxRetries, DoAll(acts, s).base)
    decreases |acts|
  {
    if acts != [] {
      var op := Sent(acts[0], s);
      ActsMarkOnce(maxRetries, acts[0], s);
      if op.Some? {
        BudgetStep(maxRetries, op.value, s.base);
      }
      SysInvStep(maxRetries, acts[0], s);
      BudgetRun(maxRetries, acts[1..], Do(acts[0], s));
    }
  }

  // Every task takes at most 3 * (maxRetries + 1) claims and marks per requeue,
  // plus two for each reclaim or reset; once they are spent it is terminal.
  lemma {:induction false} TasksTerminate(maxRetries: nat, acts: seq<Act>, start: Time, id: TaskId)
    requires CanRun(maxRetries, acts, Idle(start)) && id in DoAll(acts, Idle(start)).base.rows
    ensures
      var s := DoAll(acts, Idle(start)).base;
      var l := Book(s, id);
      && Work(l) <= Allowance(maxRetries, l)
      && (Work(l) == Allowance(maxRetries, l) ==> s.rows[id].status.Terminal())
      && (l.requeues == l.reclaims == l.resets == 0 ==>
            && Work(l) <= 3 * (maxRetries + 1)
            && (Work(l) == 3 * (maxRetries + 1) ==> s.rows[id].status.Terminal()))
  {
    SysInvRun(maxRetries, acts, Idle(start));
    BudgetRun(maxRetries, acts, Idle(start));
    WithinBudget(maxRetries, DoAll(acts, Idle(start)).base, id);
  }

  lemma WithinBudget(maxRetries: nat, s: State, id: TaskId)
    requires Inv(maxRetries, s) && InBudget(maxRetries, s) && id in s.rows
    ensures
      var l := Book(s, id);
      && Work(l) <= Allowance(maxRetries, l)
      && (Work(l) == Allowance(maxRetries, l) ==> s.rows[id].status.Terminal())
      && (l.requeues == l.reclaims == l.resets == 0 ==>
            && Work(l) <= 3 * (maxRetries + 1)
            && (Work(l) == 3 * (maxRetries + 1) ==> s.rows[id].status.Terminal()))
  {
    assert RowInv(maxRetries, s.now, s.rows[id], s.log[id]);
    LeftWhenOpen(maxRetries, s.rows[id]);
  }

  lemma LeftWhenOpen(maxRetries: nat, r: Row)
    requires RetryShape(maxRetries, r)
    ensures Left(maxRetries, r) >= 0 && (Left(maxRetries, r) == 0 <==> r.status.Terminal())
  {
  }
}
