// Start, shutdown and crash recovery of one worker.
module Worker {
  import opened Options
  import opened Tasks
  import opened TaskStore
  import opened Dispatcher

  ghost predicate HoldsNone(t: Table, worker: WorkerId) {
    forall id :: id in t ==> t[id].lockedBy != Some(worker)
  }

  class TaskWorker {
    const dispatcher: TaskDispatcher
    var started: bool
    var stopping: bool

    constructor (dispatcher: TaskDispatcher)
      ensures this.dispatcher == dispatcher && !started && !stopping
    {
      this.dispatcher, started, stopping := dispatcher, false, false;
    }

    // A restarted worker holds nothing: whatever its name was left on is due
    // at once, and no other worker's unexpired task is touched. It runs only if
    // that transaction returns.
    method Start(clock: Time, at: Time, end: End)
      requires Shaped(dispatcher.dao.rows)
      modifies this, dispatcher`lastReclaimAt, dispatcher.dao
      ensures if end == Returns then started && !stopping else started == old(started) && stopping == old(stopping)
      ensures dispatcher.lastReclaimAt == (if end == Returns then clock else old(dispatcher.lastReclaimAt))
      ensures Shaped(dispatcher.dao.rows) && dispatcher.dao.rows.Keys == old(dispatcher.dao.rows).Keys
      ensures end.Commits() ==> HoldsNone(dispatcher.dao.rows, dispatcher.workerId)
      ensures end.Commits() ==> forall id :: id in dispatcher.dao.rows ==>
        var before, after := old(dispatcher.dao.rows)[id], dispatcher.dao.rows[id];
        && after.retryCount == before.retryCount
        && (before.lockedBy == Some(dispatcher.workerId) ==> Due(after, at))
        && (before.lockedBy != Some(dispatcher.workerId) && !LeaseExpired(before, at) ==> after == before)
      ensures !end.Commits() ==> dispatcher.dao.rows == old(dispatcher.dao.rows)
    {
      if end.Commits() {
        dispatcher.RecoverZombieTasks(true, at);
      }
      if end == Returns {
        dispatcher.lastReclaimAt := clock;
        stopping := false;
        started := true;
      }
    }

    // Graceful shutdown. Executions may finish during the wait; those that do
    // not are cancelled, and only then are their tasks handed back, unless that
    // transaction is rolled back. Others keep working on the table throughout.
    method Stop(at: Time, end: End) returns (cancelled: set<TaskId>, ghost handed: Table)
      requires dispatcher.Valid() && Shaped(dispatcher.dao.rows)
      modifies this, dispatcher`running, dispatcher`live, dispatcher.dao
      ensures !started && stopping && dispatcher.running == map[]
      ensures !dispatcher.overlapped ==> dispatcher.live == {}
      ensures cancelled <= old(dispatcher.running).Keys && Shaped(dispatcher.dao.rows)
      // `handed` is the table as the cancellations left it.
      ensures cancelled != {} ==>
        if end.Commits() then HandedBack(handed, cancelled, at, dispatcher.dao.rows) else dispatcher.dao.rows == handed
      ensures cancelled != {} && end.Commits() ==> forall id :: id in cancelled && id in dispatcher.dao.rows ==>
        dispatcher.dao.rows[id].lockedBy != Some(dispatcher.workerId)
    {
      stopping := true;
      started := false;
      dispatcher.Others();  // the loop ends; executions finish within the timeout
      cancelled, handed := StopRemaining(at, end);
    }

    // What is still running is cancelled, and all of it handed back.
    method StopRemaining(at: Time, end: End) returns (cancelled: set<TaskId>, ghost handed: Table)
      requires dispatcher.Valid() && Shaped(dispatcher.dao.rows)
      modifies dispatcher`running, dispatcher`live, dispatcher.dao
      ensures dispatcher.running == map[] && (!dispatcher.overlapped ==> dispatcher.live == {})
      ensures cancelled == old(dispatcher.running).Keys && Shaped(dispatcher.dao.rows) && Shaped(handed)
      ensures cancelled == {} ==> dispatcher.dao.rows == handed == old(dispatcher.dao.rows)
      ensures if end.Commits() && cancelled != {} then HandedBack(handed, cancelled, at, dispatcher.dao.rows)
        else dispatcher.dao.rows == handed
    {
      cancelled := CancelRemaining();
      handed := dispatcher.dao.rows;
      if cancelled == {} {
        return;
      }
      dispatcher.Others();  // while the cancellations are awaited
      handed := dispatcher.dao.rows;
      if end.Commits() {
        HandBack(cancelled, at);
      }
    }

    // Exactly the executions that the map still knows of are cancelled; as they
    // end they leave it empty.
    method CancelRemaining() returns (cancelled: set<TaskId>)
      requires dispatcher.Valid()
      modifies dispatcher`running, dispatcher`live
      ensures dispatcher.Valid() && dispatcher.running == map[]
      ensures cancelled == old(dispatcher.running).Keys
      ensures dispatcher.live == old(dispatcher.live) - old(dispatcher.running).Items
    {
      cancelled := dispatcher.running.Keys;
      var gone := dispatcher.running.Items;
      NextReachable(dispatcher.maxConcurrency, dispatcher.ThePool(), Finished(gone));
      FinishKeeps(dispatcher.maxConcurrency, dispatcher.overlapped, dispatcher.ThePool(), gone);
      FewerLeft(dispatcher.live, gone);
      AllPopped(dispatcher.running);
      dispatcher.live := dispatcher.live - gone;
      dispatcher.running := Popped(dispatcher.running, gone);
    }

    static lemma AllPopped(running: map<TaskId, nat>)
      ensures Popped(running, running.Items) == map[]
    {
      forall id | id in running ensures exists h :: h in running.Items && h.0 == id {
        assert (id, running[id]) in running.Items;
      }
    }

    // Those of the listed tasks that this worker still held are due again, with
    // their retries untouched; every other row is as it was.
    ghost predicate HandedBack(before: Table, ids: set<TaskId>, at: Time, after: Table) {
      && after.Keys == before.Keys
      && forall id :: id in before ==>
        if id in ids && before[id].lockedBy == Some(dispatcher.workerId) then
          && Due(after[id], at) && after[id].lockedBy == None && after[id].leaseExpiresAt == None
          && after[id].retryCount == before[id].retryCount && after[id].transcript == before[id].transcript
        else after[id] == before[id]
    }

    method HandBack(ids: set<TaskId>, at: Time)
      requires Shaped(dispatcher.dao.rows)
      modifies dispatcher.dao
      ensures Shaped(dispatcher.dao.rows)
      ensures HandedBack(old(dispatcher.dao.rows), ids, at, dispatcher.dao.rows)
    {
      var n := dispatcher.dao.ResetAborted(ids, dispatcher.workerId, "shutdown timed out, task interrupted", at);
    }
  }
}
