// The task table as the DAO updates it in place. Every mutator is one guarded
// UPDATE; it changes the table exactly as `Tasks.After` says and answers
// whether, or how many, rows matched.
module TaskStore {
  import opened Options
  import opened Tasks

  function Eligible(t: Table, at: Time, skip: set<TaskId>): set<TaskId> {
    set id | id in t && id !in skip && Due(t[id], at)
  }

  predicate OldestFirst(t: Table, ids: set<TaskId>, pool: set<TaskId>)
    requires ids <= t.Keys && pool <= t.Keys
  {
    forall a, b :: a in ids && b in pool - ids ==> t[a].createdAt <= t[b].createdAt
  }

  // ORDER BY created_at LIMIT k.
  predicate IsPick(t: Table, pool: set<TaskId>, limit: nat, ids: set<TaskId>)
    requires pool <= t.Keys
  {
    && ids <= pool
    && |ids| == (if |pool| < limit then |pool| else limit)
    && OldestFirst(t, ids, pool)
  }

  lemma {:induction false} Oldest(t: Table, pool: set<TaskId>) returns (first: TaskId)
    requires pool <= t.Keys && pool != {}
    ensures first in pool && forall id :: id in pool ==> t[first].createdAt <= t[id].createdAt
    decreases |pool|
  {
    first :| first in pool;
    if pool != {first} {
      assert |pool - {first}| < |pool|;
      var other := Oldest(t, pool - {first});
      if t[other].createdAt < t[first].createdAt {
        first := other;
      }
    }
  }

  lemma {:induction false} PickExists(t: Table, pool: set<TaskId>, limit: nat) returns (ids: set<TaskId>)
    requires pool <= t.Keys
    ensures IsPick(t, pool, limit, ids)
    decreases limit
  {
    if limit == 0 || pool == {} {
      ids := {};
    } else {
      var first := Oldest(t, pool);
      var rest := PickExists(t, pool - {first}, limit - 1);
      ids := rest + {first};
      assert |pool - {first}| == |pool| - 1;
      assert pool - ids == pool - {first} - rest;
    }
  }

  function Matching(op: Op, t: Table): set<TaskId> {
    set id | id in t && Where(op, id, t[id])
  }

  // How a call that runs one transaction ends: it returns; it raises, or is cut
  // off, and the transaction is rolled back; or that strikes while the session
  // closes, after the commit.
  datatype End = Returns | RaisesEarly | RaisesLate {
    predicate Commits() { !RaisesEarly? }
  }

  class TaskDao {
    var rows: Table

    constructor ()
      ensures rows == map[]
    {
      rows := map[];
    }

    method Create(id: TaskId, recording: RecordingId, at: Time)
      requires id !in rows
      modifies this
      ensures rows == After(Op.Create(id, recording), at, old(rows))
    {
      rows := rows[id := NewRow(recording, at)];
    }

    // SELECT ... FOR UPDATE SKIP LOCKED, then an UPDATE by id alone. `skip` is
    // the set of rows locked by other open transactions.
    method ClaimPending(limit: int, worker: WorkerId, lease: Time, at: Time, skip: set<TaskId>)
      returns (ids: set<TaskId>)
      modifies this
      ensures limit <= 0 ==> ids == {}
      ensures limit > 0 ==> IsPick(old(rows), Eligible(old(rows), at, skip), limit, ids)
      ensures rows == After(Op.Claim(ids, limit, worker, lease, at), at, old(rows))
      ensures ids <= rows.Keys
      ensures forall id :: id in ids ==>
                && rows[id].status == Transcribing && rows[id].lockedBy == Some(worker)
                && rows[id].leaseExpiresAt == Some(at + lease)
      ensures forall id :: id in old(rows) && id !in ids ==> id in rows && rows[id] == old(rows)[id]
    {
      if limit <= 0 {
        ids := {};
        assert rows == After(Op.Claim({}, limit, worker, lease, at), at, rows);
        return;
      }
      ghost var found := PickExists(rows, Eligible(rows, at, skip), limit);
      ids :| IsPick(rows, Eligible(rows, at, skip), limit, ids);
      rows := map id | id in rows ::
        if id in ids then
          rows[id].(status := Transcribing, lockedBy := Some(worker),
                    leaseExpiresAt := Some(at + lease), updatedAt := at)
        else rows[id];
    }

    method RenewLease(id: TaskId, worker: WorkerId, lease: Time, at: Time) returns (ok: bool)
      modifies this
      ensures ok <==> id in old(rows) && old(rows)[id].lockedBy == Some(worker)
      ensures rows == After(Op.Renew(id, worker, lease), at, old(rows))
    {
      ok := id in rows && rows[id].lockedBy == Some(worker);
      if ok {
        rows := rows[id := rows[id].(leaseExpiresAt := Some(at + lease), updatedAt := at)];
      }
    }

    method MarkSummarizing(id: TaskId, worker: WorkerId, transcript: string, at: Time) returns (ok: bool)
      modifies this
      ensures ok <==> id in old(rows) && old(rows)[id].lockedBy == Some(worker)
      ensures rows == After(Op.MarkSummarizing(id, worker, transcript), at, old(rows))
    {
      ok := id in rows && rows[id].lockedBy == Some(worker);
      if ok {
        rows := rows[id := rows[id].(status := Summarizing, transcript := Some(transcript), updatedAt := at)];
      }
    }

    method MarkDone(id: TaskId, worker: WorkerId, summary: Summary, at: Time) returns (ok: bool)
      modifies this
      ensures ok <==> id in old(rows) && old(rows)[id].lockedBy == Some(worker)
      ensures rows == After(Op.MarkDone(id, worker, summary), at, old(rows))
    {
      ok := id in rows && rows[id].lockedBy == Some(worker);
      if ok {
        rows := rows[id := rows[id].(status := Done, summary := Some(summary), lockedBy := None,
                                     leaseExpiresAt := None, errorMsg := None, updatedAt := at)];
      }
    }

    method MarkFailure(id: TaskId, worker: WorkerId, error: string, maxRetries: int, at: Time)
      returns (outcome: Option<(nat, Status)>)
      modifies this
      ensures outcome.Some? <==> id in old(rows) && old(rows)[id].lockedBy == Some(worker)
      ensures rows == After(Op.MarkFailure(id, worker, error, maxRetries), at, old(rows))
      ensures outcome.Some? ==>
                && id in rows && outcome.value == (rows[id].retryCount, rows[id].status)
                && outcome.value.0 == old(rows)[id].retryCount + 1
                && outcome.value.1 == (if outcome.value.0 <= maxRetries then Pending else Failed)
                && rows[id].errorMsg == Some(if |error| <= 1000 then error else error[..1000])
    {
      if id !in rows || rows[id].lockedBy != Some(worker) {
        return None;
      }
      var count := rows[id].retryCount + 1;
      var row := rows[id].(retryCount := count, errorMsg := Some(Clip(error)), lockedBy := None,
                           leaseExpiresAt := None, updatedAt := at);
      if count <= maxRetries {
        row := row.(status := Pending, nextRetryAt := at + Power2(count));
      } else {
        row := row.(status := Failed);
      }
      rows := rows[id := row];
      outcome := Some((row.retryCount, row.status));
    }

    method RequeueFailed(id: TaskId, at: Time) returns (task: Option<Row>)
      modifies this
      ensures task.Some? <==> id in old(rows) && old(rows)[id].status == Failed
      ensures rows == After(Op.Requeue(id), at, old(rows))
      ensures task.Some? ==> id in rows && task.value == rows[id]
      ensures task.Some? ==> task.value == NewRow(task.value.recording, at).(createdAt := old(rows)[id].createdAt)
    {
      if id !in rows || rows[id].status != Failed {
        return None;
      }
      rows := rows[id := rows[id].(status := Pending, retryCount := 0, errorMsg := None,
                                   transcript := None, summary := None, lockedBy := None,
                                   leaseExpiresAt := None, nextRetryAt := at, updatedAt := at)];
      task := Some(rows[id]);
    }

    method ReclaimInFlight(worker: WorkerId, includeOwnLocks: bool, error: string, at: Time) returns (n: nat)
      modifies this
      ensures rows == After(Op.Reclaim(old(rows).Keys, worker, includeOwnLocks, error, at), at, old(rows))
      ensures n == |Matching(Op.Reclaim(old(rows).Keys, worker, includeOwnLocks, error, at), old(rows))|
    {
      var matched := set id | id in rows && Reclaimable(rows[id], worker, includeOwnLocks, at);
      assert matched == Matching(Op.Reclaim(rows.Keys, worker, includeOwnLocks, error, at), rows);
      rows := map id | id in rows :: if id in matched then Released(rows[id], error, at) else rows[id];
      n := |matched|;
    }

    method ResetAborted(ids: set<TaskId>, worker: WorkerId, error: string, at: Time) returns (n: nat)
      modifies this
      ensures rows == After(Op.ResetAborted(ids, worker, error), at, old(rows))
      ensures n == |Matching(Op.ResetAborted(ids, worker, error), old(rows))|
    {
      var matched := set id | id in rows && id in ids && rows[id].status.InFlight() && rows[id].lockedBy == Some(worker);
      assert matched == Matching(Op.ResetAborted(ids, worker, error), rows);
      rows := map id | id in rows :: if id in matched then Released(rows[id], error, at) else rows[id];
      n := |matched|;
    }

    method DeleteByRecording(recording: RecordingId) returns (n: nat)
      modifies this
      ensures forall at :: rows == After(Op.Delete(recording), at, old(rows))
      ensures n == |Matching(Op.Delete(recording), old(rows))|
    {
      var matched := set id | id in rows && rows[id].recording == recording;
      assert matched == Matching(Op.Delete(recording), rows);
      rows := map id | id in rows && id !in matched :: rows[id];
      n := |matched|;
    }
  }
}
