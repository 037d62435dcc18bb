// The retry endpoint: up to four database calls, with anything at all
// happening to the table between them, and any of them raising or cut off,
// before its commit or after.
module Retry {
  import opened Options
  import opened Tasks
  import opened TaskStore

  datatype RetryError = NotFound | NotRetryable(status: Status) | WorkerNotStarted | Interrupted

  // The API's handle on the worker: whether there is one and it has started.
  datatype WorkerLink = NoWorker | Stopped | Running

  // How each of the calls ends, if it comes to it.
  datatype Ends = Ends(first: End, look: End, second: End, lookAgain: End) {
    predicate AllReturn() { first == look == second == lookAgain == Returns }
  }

  class TaskService {
    const dao: TaskDao
    const worker: WorkerLink
    ghost var requeued: nat   // requeues of this service that matched a row and were committed
    ghost var attempts: nat   // requeues sent
    ghost var submitted: nat  // wake-ups delivered to the worker
    ghost var unanswered: nat // requeues committed whose call did not return

    constructor (dao: TaskDao, worker: WorkerLink)
      ensures this.dao == dao && this.worker == worker && requeued == attempts == submitted == unanswered == 0
    {
      this.dao, this.worker := dao, worker;
      requeued, attempts, submitted, unanswered := 0, 0, 0, 0;
    }

    method Others()
      modifies dao
    {
      dao.rows := *;
    }

    method Submit() returns (ok: bool)
      modifies this`submitted
      ensures ok <==> worker != Stopped
      ensures submitted == old(submitted) + (if worker == Running then 1 else 0)
    {
      ok := worker != Stopped;
      if worker == Running {
        submitted := submitted + 1;
      }
    }

    // The repository's call: it commits only if it matched.
    method RequeueFailed(id: TaskId, at: Time, end: End) returns (answer: Option<Result<Row, RetryError>>)
      modifies this`requeued, this`attempts, this`unanswered, dao
      ensures attempts == old(attempts) + 1
      ensures
        var hit := id in old(dao.rows) && old(dao.rows)[id].status == Failed && end.Commits();
        && dao.rows == (if hit then After(Op.Requeue(id), at, old(dao.rows)) else old(dao.rows))
        && requeued == old(requeued) + (if hit then 1 else 0)
        && unanswered == old(unanswered) + (if hit && end == RaisesLate then 1 else 0)
        && (end != Returns ==> answer == Some(Err(Interrupted)))
        && (end == Returns ==>
              if hit then id in dao.rows && answer == Some(Ok(dao.rows[id])) && Fresh(dao.rows[id]) else answer == None)
    {
      attempts := attempts + 1;
      if end == RaisesEarly {
        return Some(Err(Interrupted));
      }
      var task := dao.RequeueFailed(id, at);
      if task.Some? {
        requeued := requeued + 1;
      } else {
        assert dao.rows == old(dao.rows);
      }
      if end == RaisesLate {
        if task.Some? {
          unanswered := unanswered + 1;
        }
        return Some(Err(Interrupted));
      }
      answer := if task.Some? then Some(Ok(task.value)) else None;
    }

    // As a task created when it was last touched.
    static predicate Fresh(r: Row) {
      r == NewRow(r.recording, r.updatedAt).(createdAt := r.createdAt)
    }

    // A requeue that returns is submitted; None if it matched nothing.
    method RequeueAndSubmit(id: TaskId, at: Time, end: End) returns (answer: Option<Result<Row, RetryError>>)
      modifies this, dao
      ensures attempts == old(attempts) + 1
      ensures requeued - old(requeued) == unanswered - old(unanswered) + (if Woken(answer) then 1 else 0)
      ensures submitted - old(submitted) == (if Woken(answer) && worker == Running then 1 else 0)
      ensures old(requeued) <= requeued && old(unanswered) <= unanswered
      ensures
        var hit := id in old(dao.rows) && old(dao.rows)[id].status == Failed;
        && dao.rows == (if hit && end.Commits() then After(Op.Requeue(id), at, old(dao.rows)) else old(dao.rows))
        && requeued == old(requeued) + (if hit && end.Commits() then 1 else 0)
        && (answer == Some(Err(Interrupted)) <==> end != Returns)
        && (answer == None <==> end == Returns && !hit)
      ensures Woken(answer) ==>
        if worker == Stopped then answer.value == Err(WorkerNotStarted)
        else id in dao.rows && answer.value == Ok(dao.rows[id]) && Fresh(dao.rows[id])
    {
      answer := RequeueFailed(id, at, end);
      if answer.Some? && answer.value.Ok? {
        var ok := Submit();
        if !ok {
          answer := Some(Err(WorkerNotStarted));
        }
      }
    }

    // A requeue happened and its call returned.
    static predicate Woken(answer: Option<Result<Row, RetryError>>) {
      answer.Some? && answer.value != Err(Interrupted)
    }

    // At most one requeue. It is submitted, unless its call was cut off after
    // the commit. The answer says what happened: a row in the pipeline, or why
    // there is none; only a call that does not return interrupts it.
    method RetryTask(id: TaskId, at: Time, ends: Ends) returns (answer: Result<Row, RetryError>)
      modifies this, dao
      ensures old(requeued) <= requeued <= old(requeued) + 1 && old(unanswered) <= unanswered
      ensures unanswered > old(unanswered) ==> answer == Err(Interrupted) && requeued == old(requeued) + 1
      ensures submitted - old(submitted) ==
        (if worker == Running then (requeued - old(requeued)) - (unanswered - old(unanswered)) else 0)
      ensures answer.Ok? ==>
        && answer.value.status.Recoverable()
        && id in dao.rows && dao.rows[id] == answer.value
        && (requeued > old(requeued) ==> Fresh(answer.value))
      ensures requeued > old(requeued) ==>
        if unanswered > old(unanswered) then answer == Err(Interrupted) else (answer.Ok? <==> worker != Stopped)
      ensures answer == Err(WorkerNotStarted) ==> requeued > old(requeued)
      ensures answer.Err? && answer.error.NotRetryable? ==>
        && answer.error.status.Terminal()
        && id in dao.rows && dao.rows[id].status == answer.error.status
      // A task is refused as failed only if two requeues in a row missed it.
      ensures answer == Err(NotRetryable(Failed)) ==> attempts == old(attempts) + 2
      ensures answer == Err(NotFound) ==> id !in dao.rows
      ensures answer == Err(Interrupted) ==> !ends.AllReturn()
      ensures answer != Err(Interrupted) && id in old(dao.rows) && old(dao.rows)[id].status == Failed ==>
        requeued == old(requeued) + 1 && (answer.Ok? <==> worker != Stopped)
      ensures ends.first != Returns ==> answer == Err(Interrupted)
    {
      var first := RequeueAndSubmit(id, at, ends.first);
      if first.Some? {
        return first.value;
      }
      var task := Look(id, ends.look);
      if task.Err? {
        return task;
      }
      if task.value.status.Recoverable() {
        return task;
      }
      if task.value.status == Failed {
        Others();
        var second := RequeueAndSubmit(id, at, ends.second);
        if second.Some? {
          return second.value;
        }
        task := Look(id, ends.lookAgain);
        if task.Err? || task.value.status.Recoverable() {
          return task;
        }
      }
      return Err(NotRetryable(task.value.status));
    }

    // What is found is answered, unless the call does not return.
    method Look(id: TaskId, end: End) returns (task: Result<Row, RetryError>)
      modifies dao
      ensures task ==
        if end != Returns then Err(Interrupted) else if id in dao.rows then Ok(dao.rows[id]) else Err(NotFound)
    {
      Others();
      if end != Returns {
        return Err(Interrupted);
      }
      task := if id in dao.rows then Ok(dao.rows[id]) else Err(NotFound);
    }
  }
}
