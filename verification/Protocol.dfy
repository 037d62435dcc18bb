// Runs of the task queue: the table, the clock, and, for each task ever
// created, a ledger of the statements that matched its row. Any number of
// workers and clients interleave their statements freely; every claim below
// holds in every state of every run.
module Protocol {
  import opened Options
  import opened Tasks

  datatype Ledger = Ledger(
    claims: nat,
    transcripts: nat,
    dones: nat,
    failures: nat,
    requeues: nat,
    reclaims: nat,
    resets: nat,
    epochStart: Time)  // creation, or the last requeue

  datatype State = State(rows: Table, log: map<TaskId, Ledger>, now: Time)

  function Empty(start: Time): State {
    State(map[], map[], start)
  }

  function Tally(op: Op, now: Time, l: Ledger): Ledger {
    match op
    case Claim(_, _, _, _, _) => l.(claims := l.claims + 1)
    case MarkSummarizing(_, _, _) => l.(transcripts := l.transcripts + 1)
    case MarkDone(_, _, _) => l.(dones := l.dones + 1)
    case MarkFailure(_, _, _, _) => l.(failures := l.failures + 1)
    case Requeue(_) => l.(requeues := l.requeues + 1, epochStart := now)
    case Reclaim(_, _, _, _, _) => l.(reclaims := l.reclaims + 1)
    case ResetAborted(_, _, _) => l.(resets := l.resets + 1)
    case _ => l
  }

  function LogAfter(op: Op, s: State): map<TaskId, Ledger> {
    match op
    case Create(id, _) => s.log[id := Ledger(0, 0, 0, 0, 0, 0, 0, s.now)]
    case _ =>
      map id | id in s.log ::
        if id in s.rows && Where(op, id, s.rows[id]) then Tally(op, s.now, s.log[id]) else s.log[id]
  }

  function Apply(op: Op, s: State): State {
    State(After(op, s.now, s.rows), LogAfter(op, s), if op.Tick? then s.now + op.elapsed else s.now)
  }

  // What the callers guarantee. Fresh UUIDs and the unique recording_id on
  // creation; the SELECT before the claim's UPDATE; a shared max_retries; the
  // non-empty dictionaries of the summarizer; transactions begun in the past.
  predicate Legal(maxRetries: nat, op: Op, s: State) {
    match op
    case Create(id, recording) =>
      id !in s.log && forall other :: other in s.rows ==> s.rows[other].recording != recording
    case Claim(ids, limit, _, lease, at) =>
      && |ids| <= (if limit > 0 then limit else 0)
      && 0.0 <= lease && at <= s.now
      && forall id :: id in ids ==> id in s.rows && Due(s.rows[id], at)
    case Renew(_, _, lease) => 0.0 <= lease
    case MarkDone(_, _, summary) => summary != []
    case MarkFailure(_, _, _, limit) => limit == maxRetries
    case Reclaim(_, _, own, _, at) => at <= s.now && (own ==> at == s.now)
    case Tick(elapsed) => 0.0 <= elapsed
    case _ => true
  }

  ghost predicate LegalRun(maxRetries: nat, ops: seq<Op>, s: State)
    decreases |ops|
  {
    ops != [] ==> Legal(maxRetries, ops[0], s) && LegalRun(maxRetries, ops[1..], Apply(ops[0], s))
  }

  function Run(ops: seq<Op>, s: State): State
    decreases |ops|
  {
    if ops == [] then s else Run(ops[1..], Apply(ops[0], s))
  }

  // ----- The invariant, row by row

  // Seconds of backoff served before attempt n + 1: 2 + 4 + ... + 2^n.
  function Served(n: nat): Time {
    2.0 * Power2(n) - 2.0
  }

  predicate LockShape(r: Row) {
    && (r.status.InFlight() <==> r.lockedBy.Some?)
    && (r.status.InFlight() <==> r.leaseExpiresAt.Some?)
  }

  ghost predicate ResultShape(r: Row) {
    && (r.status == Done <==> r.summary.Some?)
    && (r.summary.Some? ==> r.summary.value != [])
    && (r.status == Summarizing ==> r.transcript.Some?)
    && (r.status == Done ==> r.errorMsg == None)
    && (r.status == Failed ==> r.errorMsg.Some? && |r.errorMsg.value| <= MAX_ERROR)
    // No error yet, and nothing transcribed: as new, whether created or requeued.
    && (r.errorMsg == None && (r.status == Pending || r.status == Transcribing) ==>
          r.transcript == None && r.retryCount == 0)
  }

  ghost predicate RetryShape(maxRetries: nat, r: Row) {
    if r.status == Failed then r.retryCount == maxRetries + 1 else r.retryCount <= maxRetries
  }

  ghost predicate Conserved(maxRetries: nat, r: Row, l: Ledger) {
    && l.claims == l.failures + l.reclaims + l.resets + l.dones + (if r.status.InFlight() then 1 else 0)
    && l.failures == (maxRetries + 1) * l.requeues + r.retryCount
    && l.dones == (if r.status == Done then 1 else 0)
  }

  ghost predicate Paced(maxRetries: nat, now: Time, r: Row, l: Ledger) {
    && l.epochStart <= now && r.createdAt <= l.epochStart && r.updatedAt <= now
    && (r.status == Pending ==> r.nextRetryAt >= l.epochStart + Served(r.retryCount))
    && (r.status.InFlight() ==>
          && now >= l.epochStart + Served(r.retryCount)
          && (r.leaseExpiresAt.Some? ==> r.leaseExpiresAt.value >= l.epochStart + Served(r.retryCount)))
    && (r.status == Failed ==> r.updatedAt >= l.epochStart + Served(maxRetries))
  }

  ghost predicate RowInv(maxRetries: nat, now: Time, r: Row, l: Ledger) {
    && LockShape(r)
    && ResultShape(r)
    && RetryShape(maxRetries, r)
    && Conserved(maxRetries, r, l)
    && Paced(maxRetries, now, r, l)
  }

  ghost predicate Inv(maxRetries: nat, s: State) {
    && s.rows.Keys <= s.log.Keys
    && (forall id :: id in s.rows ==> RowInv(maxRetries, s.now, s.rows[id], s.log[id]))
    && (forall a, b :: a in s.rows && b in s.rows && s.rows[a].recording == s.rows[b].recording ==> a == b)
  }

  lemma RowStep(maxRetries: nat, op: Op, s: State, id: TaskId)
    requires Inv(maxRetries, s) && Legal(maxRetries, op, s) && id in s.rows && Where(op, id, s.rows[id])
    requires !op.Delete?
    ensures RowInv(maxRetries, s.now, Set(op, s.now, s.rows[id]), Tally(op, s.now, s.log[id]))
  {
    var l := s.log[id];
    if op.Requeue? {
      assert (maxRetries + 1) * (l.requeues + 1) == (maxRetries + 1) * l.requeues + (maxRetries + 1);
    }
  }

  lemma RowAnyStep(maxRetries: nat, op: Op, s: State, id: TaskId)
    requires Inv(maxRetries, s) && Legal(maxRetries, op, s) && id in Apply(op, s).rows
    ensures id in Apply(op, s).log
    ensures RowInv(maxRetries, Apply(op, s).now, Apply(op, s).rows[id], Apply(op, s).log[id])
  {
    var t := Apply(op, s);
    if id in s.rows && Where(op, id, s.rows[id]) && !op.Delete? {
      RowStep(maxRetries, op, s, id);
    } else if id in s.rows {
      assert t.rows[id] == s.rows[id] && t.log[id] == s.log[id];
    }
  }

  lemma InvStep(maxRetries: nat, op: Op, s: State)
    requires Inv(maxRetries, s) && Legal(maxRetries, op, s)
    ensures Inv(maxRetries, Apply(op, s))
  {
    var t := Apply(op, s);
    forall id | id in t.rows
      ensures id in t.log && RowInv(maxRetries, t.now, t.rows[id], t.log[id])
    {
      RowAnyStep(maxRetries, op, s, id);
    }
    forall a, b | a in t.rows && b in t.rows && t.rows[a].recording == t.rows[b].recording
      ensures a == b
    {
      RecordingKept(op, s, a);
      RecordingKept(op, s, b);
    }
  }

  lemma RecordingKept(op: Op, s: State, id: TaskId)
    requires id in Apply(op, s).rows
    ensures
      if op.Create? && id == op.id then Apply(op, s).rows[id].recording == op.recording
      else id in s.rows && Apply(op, s).rows[id].recording == s.rows[id].recording
  {
  }

  lemma {:induction false} InvRun(maxRetries: nat, ops: seq<Op>, s: State)
    requires Inv(maxRetries, s) && LegalRun(maxRetries, ops, s)
    ensures Inv(maxRetries, Run(ops, s))
    decreases |ops|
  {
    if ops != [] {
      InvStep(maxRetries, ops[0], s);
      InvRun(maxRetries, ops[1..], Apply(ops[0], s));
    }
  }
}
