// What a reader sees on a row: its transcript, its error and its summary, as the
// last statements that wrote them left them.
module Columns {
  import opened Options
  import opened Tasks
  import opened Protocol
  import opened QueueLaws

  // A requeued task is as new, but for when it was created.
  lemma RequeuedIsNew(id: TaskId, now: Time, r: Row)
    ensures Set(Requeue(id), now, r) == NewRow(r.recording, now).(createdAt := r.createdAt)
  {
  }

  // An error is stored whole up to 1000 characters, and cut there.
  lemma ClipIsLongestPrefix(error: string)
    ensures Clip(error) <= error && |Clip(error)| <= 1000
    ensures forall s: string :: s <= error && |s| <= 1000 ==> s <= Clip(error)
  {
  }

  // Nothing but a new transcript and a requeue writes the transcript, and
  // nothing but a result and a requeue the summary; so an attempt that fails, is
  // reclaimed or reset, and the claim after it, leave what an earlier one saved.
  lemma AttemptsKeepResults(op: Op, now: Time, r: Row)
    ensures !op.MarkSummarizing? && !op.Requeue? ==> Set(op, now, r).transcript == r.transcript
    ensures !op.MarkDone? && !op.Requeue? ==> Set(op, now, r).summary == r.summary
    ensures op.Claim? || op.Renew? || op.MarkSummarizing? ==> Set(op, now, r).errorMsg == r.errorMsg
    ensures op.Claim? || op.Renew? || op.MarkSummarizing? || op.MarkDone? || op.Reclaim? || op.ResetAborted? ==>
      Set(op, now, r).retryCount == r.retryCount
  {
  }

  // A lease runs from the transaction's start, and only a claim or a renewal moves it.
  lemma LeaseFromNow(op: Op, now: Time, r: Row)
    ensures op.Claim? ==> Set(op, now, r).leaseExpiresAt == Some(op.at + op.lease) && Set(op, now, r).lockedBy == Some(op.worker)
    ensures op.Renew? ==> Set(op, now, r).leaseExpiresAt == Some(now + op.lease) && Set(op, now, r).status == r.status
    ensures op.Renew? || op.MarkSummarizing? ==> Set(op, now, r).lockedBy == r.lockedBy
    ensures op.MarkSummarizing? ==> Set(op, now, r).leaseExpiresAt == r.leaseExpiresAt
  {
  }

  // Only what makes a task wait again sets when it is due.
  lemma RetryTimeKept(op: Op, now: Time, r: Row)
    requires op.Claim? || op.Renew? || op.MarkSummarizing? || op.MarkDone? || (op.MarkFailure? && Set(op, now, r).status == Failed)
    ensures Set(op, now, r).nextRetryAt == r.nextRetryAt
  {
  }

  datatype Shown = Shown(transcript: Option<string>, errorMsg: Option<string>, summary: Option<Summary>)

  function Columns(r: Row): Shown {
    Shown(r.transcript, r.errorMsg, r.summary)
  }

  // What a statement that matched wrote last.
  function Written(op: Op, v: Shown): Shown {
    match op
    case MarkSummarizing(_, _, transcript) => v.(transcript := Some(transcript))
    case MarkDone(_, _, summary) => v.(summary := Some(summary), errorMsg := None)
    case MarkFailure(_, _, error, _) => v.(errorMsg := Some(if |error| <= 1000 then error else error[..1000]))
    case Reclaim(_, _, _, error, _) => v.(errorMsg := Some(error))
    case ResetAborted(_, _, error) => v.(errorMsg := Some(error))
    case Requeue(_) => Shown(None, None, None)
    case _ => v
  }

  function LastWritten(ops: seq<Op>, s: State, id: TaskId, v: Shown): Shown
    decreases |ops|
  {
    if ops == [] then v
    else
      var hit := id in s.rows && Where(ops[0], id, s.rows[id]);
      LastWritten(ops[1..], Apply(ops[0], s), id, if hit then Written(ops[0], v) else v)
  }

  // In every run a row shows what was last written to it, since its creation.
  lemma {:induction false} RowsShowLastWritten(maxRetries: nat, ops: seq<Op>, s: State, id: TaskId)
    requires LegalRun(maxRetries, ops, s) && s.rows.Keys <= s.log.Keys
    requires id in s.rows && id in Run(ops, s).rows
    ensures Columns(Run(ops, s).rows[id]) == LastWritten(ops, s, id, Columns(s.rows[id]))
    decreases |ops|
  {
    if ops != [] {
      var t := Apply(ops[0], s);
      AppliedRow(ops[0], s, id);
      LogCovers(ops[0], s);
      if id !in t.rows {
        GoneIsForever(maxRetries, ops[1..], t, id);
      }
      RowsShowLastWritten(maxRetries, ops[1..], t, id);
    }
  }

  lemma LogCovers(op: Op, s: State)
    requires s.rows.Keys <= s.log.Keys
    ensures Apply(op, s).rows.Keys <= Apply(op, s).log.Keys
  {
  }

  // A new task shows nothing.
  lemma CreatedShowsNothing(id: TaskId, recording: RecordingId, s: State)
    ensures id in Apply(Create(id, recording), s).rows
    ensures Columns(Apply(Create(id, recording), s).rows[id]) == Shown(None, None, None)
  {
  }
}
