// The `tasks` table: its rows, and every statement the service ever runs on
// it. Each statement is a WHERE clause (`Where`) and an assignment (`Set`);
// `After` applies it to the whole table.
module Tasks {
  import opened Options
  import opened Json

  type TaskId = nat
  type RecordingId = nat
  type WorkerId = string
  type Time = real  // seconds on the database clock
  type Summary = seq<Member>  // a JSON object, member by member

  datatype Status = Pending | Transcribing | Summarizing | Done | Failed {
    predicate InFlight() { Transcribing? || Summarizing? }

    predicate Recoverable() { Pending? || InFlight() }

    predicate Terminal() { Done? || Failed? }
  }

  datatype Row = Row(
    recording: RecordingId,
    status: Status,
    retryCount: nat,
    lockedBy: Option<WorkerId>,
    nextRetryAt: Time,
    leaseExpiresAt: Option<Time>,
    transcript: Option<string>,
    errorMsg: Option<string>,
    createdAt: Time,
    updatedAt: Time,
    summary: Option<Summary>)

  type Table = map<TaskId, Row>

  // Statements on the table. `at` is the time of the surrounding transaction,
  // written out where that transaction has more than one statement; the other
  // statements are stamped with the current time.
  datatype Op =
    | Create(id: TaskId, recording: RecordingId)
    | Claim(ids: set<TaskId>, limit: int, worker: WorkerId, lease: Time, at: Time)
    | Renew(id: TaskId, worker: WorkerId, lease: Time)
    | MarkSummarizing(id: TaskId, worker: WorkerId, transcript: string)
    | MarkDone(id: TaskId, worker: WorkerId, summary: Summary)
    | MarkFailure(id: TaskId, worker: WorkerId, error: string, maxRetries: int)
    | Requeue(id: TaskId)
    | Reclaim(ids: set<TaskId>, worker: WorkerId, own: bool, error: string, at: Time)
    | ResetAborted(ids: set<TaskId>, worker: WorkerId, error: string)
    | Delete(recording: RecordingId)
    | Tick(elapsed: Time)

  const MAX_ERROR := 1000

  function Clip(error: string): string {
    if |error| <= MAX_ERROR then error else error[..MAX_ERROR]
  }

  function Power2(n: nat): Time {
    if n == 0 then 1.0 else 2.0 * Power2(n - 1)
  }

  function NewRow(recording: RecordingId, now: Time): Row {
    Row(recording, Pending, 0, None, now, None, None, None, now, now, None)
  }

  // A row the claim's SELECT accepts.
  predicate Due(r: Row, at: Time) {
    r.status == Pending && r.nextRetryAt <= at
  }

  predicate LeaseExpired(r: Row, at: Time) {
    r.leaseExpiresAt.Some? && r.leaseExpiresAt.value < at
  }

  // A row `reclaim_in_flight` accepts.
  predicate Reclaimable(r: Row, worker: WorkerId, own: bool, at: Time) {
    r.status.InFlight() && ((own && r.lockedBy == Some(worker)) || LeaseExpired(r, at))
  }

  predicate Where(op: Op, id: TaskId, r: Row) {
    match op
    case Create(_, _) => false
    case Claim(ids, _, _, _, _) => id in ids
    case Renew(task, worker, _) => id == task && r.lockedBy == Some(worker)
    case MarkSummarizing(task, worker, _) => id == task && r.lockedBy == Some(worker)
    case MarkDone(task, worker, _) => id == task && r.lockedBy == Some(worker)
    case MarkFailure(task, worker, _, _) => id == task && r.lockedBy == Some(worker)
    case Requeue(task) => id == task && r.status == Failed
    case Reclaim(ids, worker, own, _, at) => id in ids && Reclaimable(r, worker, own, at)
    case ResetAborted(ids, worker, _) => id in ids && r.status.InFlight() && r.lockedBy == Some(worker)
    case Delete(recording) => r.recording == recording
    case Tick(_) => false
  }

  function Released(r: Row, error: string, at: Time): Row {
    r.(status := Pending, errorMsg := Some(error), nextRetryAt := at,
       lockedBy := None, leaseExpiresAt := None, updatedAt := at)
  }

  function Punished(r: Row, error: string, maxRetries: int, now: Time): Row {
    var count := r.retryCount + 1;
    var canRetry := count <= maxRetries;
    r.(retryCount := count, errorMsg := Some(Clip(error)),
       lockedBy := None, leaseExpiresAt := None, updatedAt := now,
       status := if canRetry then Pending else Failed,
       nextRetryAt := if canRetry then now + Power2(count) else r.nextRetryAt)
  }

  function Set(op: Op, now: Time, r: Row): Row {
    match op
    case Claim(_, _, worker, lease, at) =>
      r.(status := Transcribing, lockedBy := Some(worker),
         leaseExpiresAt := Some(at + lease), updatedAt := at)
    case Renew(_, _, lease) => r.(leaseExpiresAt := Some(now + lease), updatedAt := now)
    case MarkSummarizing(_, _, transcript) =>
      r.(status := Summarizing, transcript := Some(transcript), updatedAt := now)
    case MarkDone(_, _, summary) =>
      r.(status := Done, summary := Some(summary), lockedBy := None,
         leaseExpiresAt := None, errorMsg := None, updatedAt := now)
    case MarkFailure(_, _, error, maxRetries) => Punished(r, error, maxRetries, now)
    case Requeue(_) =>
      r.(status := Pending, retryCount := 0, errorMsg := None, transcript := None,
         summary := None, lockedBy := None, leaseExpiresAt := None,
         nextRetryAt := now, updatedAt := now)
    case Reclaim(_, _, _, error, at) => Released(r, error, at)
    case ResetAborted(_, _, error) => Released(r, error, now)
    case Create(_, _) => r
    case Delete(_) => r
    case Tick(_) => r
  }

  function RowAfter(op: Op, now: Time, id: TaskId, r: Row): Row {
    if Where(op, id, r) then Set(op, now, r) else r
  }

  function After(op: Op, now: Time, t: Table): Table {
    match op
    case Create(id, recording) => t[id := NewRow(recording, now)]
    case Delete(_) => map id | id in t && !Where(op, id, t[id]) :: t[id]
    case _ => map id | id in t :: RowAfter(op, now, id, t[id])
  }
}
