// The dispatcher loop and the worker's start and stop, as they change the
// running-task map and, through the DAO, the table. What other workers, clients
// and executions do while the dispatcher awaits is an arbitrary change of the
// table within its lock shape, and an arbitrary set of executions finishing.
module Dispatcher {
  import opened Options
  import opened Tasks
  import opened Protocol
  import opened TaskStore
  import opened QueueLaws

  type Handle = (TaskId, nat)  // an execution: its task, and which one it is

  predicate Shaped(t: Table) {
    forall id :: id in t ==> LockShape(t[id])
  }

  function Cap(n: int): nat {
    if n > 0 then n else 0
  }

  function Reason(includeOwnLocks: bool): string {
    if includeOwnLocks then "restarted or lease expired" else "lease expired"
  }

  function ReclaimInterval(lease: Time): Time {
    if lease / 2.0 > 30.0 then lease / 2.0 else 30.0
  }

  // One transaction: the reclaim, if due, then the claim.
  function ReclaimedIfDue(t: Table, due: bool, worker: WorkerId, at: Time): Table {
    if due then After(Op.Reclaim(t.Keys, worker, false, Reason(false), at), at, t) else t
  }

  function TransactionOps(t: Table, due: bool, worker: WorkerId, ids: set<TaskId>, limit: int, lease: Time, at: Time): seq<Op> {
    (if due then [Op.Reclaim(t.Keys, worker, false, Reason(false), at)] else [])
    + [Op.Claim(ids, limit, worker, lease, at)]
  }

  // From any state of the queue that shows the table t, the transaction is a
  // legal run that leaves the table after.
  ghost predicate IsRunFrom(maxRetries: nat, s: State, ops: seq<Op>, after: Table) {
    LegalRun(maxRetries, ops, s) && Run(ops, s).rows == after
  }

  ghost predicate IsTransaction(
    before: Table, due: bool, worker: WorkerId, ids: set<TaskId>, limit: int, lease: Time, at: Time, after: Table)
  {
    forall maxRetries: nat, s: State | s.rows == before && at <= s.now ::
      IsRunFrom(maxRetries, s, TransactionOps(s.rows, due, worker, ids, limit, lease, at), after)
  }

  lemma TransactionIsRun(
    maxRetries: nat, s: State, due: bool, worker: WorkerId, ids: set<TaskId>, limit: int, lease: Time, at: Time)
    requires at <= s.now && 0.0 <= lease && |ids| <= Cap(limit)
    requires
      var pre := ReclaimedIfDue(s.rows, due, worker, at);
      forall id :: id in ids ==> id in pre && Due(pre[id], at)
    ensures
      IsRunFrom(maxRetries, s, TransactionOps(s.rows, due, worker, ids, limit, lease, at),
                After(Op.Claim(ids, limit, worker, lease, at), at, ReclaimedIfDue(s.rows, due, worker, at)))
  {
    var claim := Op.Claim(ids, limit, worker, lease, at);
    if due {
      var reclaim := Op.Reclaim(s.rows.Keys, worker, false, Reason(false), at);
      OneOp(maxRetries, claim, Apply(reclaim, s));
      assert [reclaim] + [claim] == [reclaim, claim] && [reclaim, claim][1..] == [claim];
    } else {
      OneOp(maxRetries, claim, s);
      assert [] + [claim] == [claim];
    }
  }

  predicate Lapsed(r: Row, at: Time) {
    r.status.InFlight() && LeaseExpired(r, at)
  }

  // Pending and due, or made so by the reclaim.
  predicate Ready(r: Row, due: bool, at: Time) {
    Due(r, at) || (due && Lapsed(r, at))
  }

  // What a committed iteration does to the table: it claims as many ready rows
  // as there is room for, the oldest first, but for rows locked by others; when
  // a reclaim is due it makes the other lapsed rows due; it changes no other.
  ghost predicate Dispatched(
    before: Table, due: bool, room: nat, worker: WorkerId, lease: Time, at: Time, skip: set<TaskId>,
    ids: set<TaskId>, after: Table)
  {
    && Selected(before, due, room, at, skip, ids)
    && after.Keys == before.Keys
    && forall id :: id in before ==> RowDispatched(before[id], due, worker, lease, at, id in ids, after[id])
  }

  ghost predicate Selected(before: Table, due: bool, room: nat, at: Time, skip: set<TaskId>, ids: set<TaskId>) {
    && |ids| <= room
    && (forall id :: id in ids ==> id in before && id !in skip && Ready(before[id], due, at))
    && (|ids| < room ==> forall id :: id in before && id !in skip && Ready(before[id], due, at) ==> id in ids)
    && (forall a, b :: a in ids && b in before && b !in ids && b !in skip && Ready(before[b], due, at) ==>
          before[a].createdAt <= before[b].createdAt)
  }

  ghost predicate RowDispatched(r: Row, due: bool, worker: WorkerId, lease: Time, at: Time, taken: bool, q: Row) {
    && q.retryCount == r.retryCount
    && if taken then
         q.status == Transcribing && q.lockedBy == Some(worker) && q.leaseExpiresAt == Some(at + lease)
       else if due && Lapsed(r, at) then Due(q, at) && q.lockedBy == None && q.leaseExpiresAt == None
       else q == r
  }

  lemma PreRows(before: Table, due: bool, worker: WorkerId, at: Time, id: TaskId)
    requires id in before && (due && Lapsed(before[id], at) ==> LockShape(before[id]))
    ensures
      var pre := ReclaimedIfDue(before, due, worker, at);
      && pre.Keys == before.Keys && pre[id].createdAt == before[id].createdAt
      && pre[id].retryCount == before[id].retryCount
      && (Due(pre[id], at) <==> Ready(before[id], due, at))
      && (due && Lapsed(before[id], at) ==> pre[id].lockedBy == None && pre[id].leaseExpiresAt == None)
      && (!(due && Lapsed(before[id], at)) ==> pre[id] == before[id])
  {
  }

  // An empty pick, or the pick of an ORDER BY and a LIMIT.
  ghost predicate Picked(pre: Table, at: Time, skip: set<TaskId>, room: nat, ids: set<TaskId>) {
    if room == 0 then ids == {} else IsPick(pre, Eligible(pre, at, skip), room, ids)
  }

  ghost predicate SameOrder(before: Table, due: bool, at: Time, pre: Table) {
    && pre.Keys == before.Keys
    && forall id :: id in before ==>
         pre[id].createdAt == before[id].createdAt && (Due(pre[id], at) <==> Ready(before[id], due, at))
  }

  lemma PickSelects(before: Table, due: bool, room: nat, at: Time, skip: set<TaskId>, pre: Table, ids: set<TaskId>)
    requires SameOrder(before, due, at, pre) && Picked(pre, at, skip, room, ids)
    ensures Selected(before, due, room, at, skip, ids)
  {
    var pool := Eligible(pre, at, skip);
    forall id ensures id in pool <==> id in before && id !in skip && Ready(before[id], due, at) {
    }
    assert ids <= pool;
    if 0 < room && |ids| < room {
      FullPick(pre, pool, room, ids);
    }
    forall a, b | a in ids && b in before && b !in ids && b !in skip && Ready(before[b], due, at)
      ensures before[a].createdAt <= before[b].createdAt
    {
      assert b in pool - ids;
      assert pre[a].createdAt <= pre[b].createdAt;
    }
  }

  lemma PickDispatches(
    before: Table, due: bool, room: nat, worker: WorkerId, limit: int, lease: Time, at: Time, skip: set<TaskId>, ids: set<TaskId>)
    requires Shaped(before) && Picked(ReclaimedIfDue(before, due, worker, at), at, skip, room, ids)
    ensures
      Dispatched(before, due, room, worker, lease, at, skip, ids,
                 After(Op.Claim(ids, limit, worker, lease, at), at, ReclaimedIfDue(before, due, worker, at)))
  {
    var pre := ReclaimedIfDue(before, due, worker, at);
    forall id | id in before
      ensures pre.Keys == before.Keys && pre[id].createdAt == before[id].createdAt
      ensures Due(pre[id], at) <==> Ready(before[id], due, at)
    {
      PreRows(before, due, worker, at, id);
    }
    assert pre.Keys == before.Keys;
    PickSelects(before, due, room, at, skip, pre, ids);
    var after := After(Op.Claim(ids, limit, worker, lease, at), at, pre);
    forall id | id in before ensures id in after && RowDispatched(before[id], due, worker, lease, at, id in ids, after[id]) {
      PreRows(before, due, worker, at, id);
    }
  }

  // A pick below its limit took everything.
  lemma FullPick(t: Table, pool: set<TaskId>, limit: nat, ids: set<TaskId>)
    requires pool <= t.Keys && IsPick(t, pool, limit, ids) && |ids| < limit
    ensures ids == pool
  {
    assert ids + (pool - ids) == pool;
  }

  function Least(a: int, b: int): int {
    if a < b then a else b
  }

  // What the loop is given at each iteration, and what it did.
  datatype Iteration = Iteration(clock: Time, at: Time, skip: set<TaskId>, end: End)

  datatype Record = Record(
    before: Table, inFlight: nat, reclaimedAt: Time, ids: set<TaskId>, after: Table, reclaimedAtAfter: Time)

  // Scheduling inserts by task id; a finishing execution pops by task id, even
  // if the entry is by then another execution's.
  function Scheduled(running: map<TaskId, nat>, h: Handle): map<TaskId, nat> {
    running[h.0 := h.1]
  }

  function Popped(running: map<TaskId, nat>, gone: set<Handle>): map<TaskId, nat> {
    map id | id in running && !exists h :: h in gone && h.0 == id :: running[id]
  }

  // The map tells exactly which executions are live.
  predicate Tracks(running: map<TaskId, nat>, live: set<Handle>) {
    live == running.Items
  }

  lemma SchedulingTracksIff(running: map<TaskId, nat>, live: set<Handle>, h: Handle)
    requires Tracks(running, live) && h !in live
    ensures Tracks(Scheduled(running, h), live + {h}) <==> h.0 !in running
  {
    var after := Scheduled(running, h);
    if h.0 in running {
      assert (h.0, running[h.0]) in live && (h.0, running[h.0]) !in after.Items;
    } else {
      forall x ensures x in after.Items <==> x in live + {h} {
        assert x in after.Items <==> x.0 in after && after[x.0] == x.1;
        assert x in running.Items <==> x.0 in running && running[x.0] == x.1;
      }
    }
  }

  lemma FinishingTracks(running: map<TaskId, nat>, live: set<Handle>, gone: set<Handle>)
    requires Tracks(running, live) && gone <= live
    ensures Tracks(Popped(running, gone), live - gone)
  {
    var after := Popped(running, gone);
    forall x ensures x in after.Items <==> x in live - gone {
      assert x in after.Items <==> x.0 in after && after[x.0] == x.1;
      assert x in running.Items <==> x.0 in running && running[x.0] == x.1;
    }
  }

  // ----- How many executions can be live

  // The map, the executions the event loop still runs, and how many were started.
  datatype Pool = Pool(running: map<TaskId, nat>, live: set<Handle>, launched: nat)

  datatype Event = Started(id: TaskId) | Finished(gone: set<Handle>)

  const NO_TASKS := Pool(map[], {}, 0)

  function Next(e: Event, p: Pool): Pool {
    match e
    case Started(id) => Pool(Scheduled(p.running, (id, p.launched)), p.live + {(id, p.launched)}, p.launched + 1)
    case Finished(gone) => Pool(Popped(p.running, gone), p.live - gone, p.launched)
  }

  // The loop starts an execution only while the map has room.
  ghost predicate May(maxConcurrency: int, e: Event, p: Pool) {
    match e
    case Started(_) => |p.running| < maxConcurrency
    case Finished(gone) => gone <= p.live
  }

  ghost predicate Moves(maxConcurrency: int, p: Pool, q: Pool) {
    exists e :: May(maxConcurrency, e, p) && q == Next(e, p)
  }

  ghost predicate History(maxConcurrency: int, past: seq<Pool>) {
    && past != [] && past[0] == NO_TASKS
    && forall i :: 0 <= i < |past| - 1 ==> Moves(maxConcurrency, past[i], past[i + 1])
  }

  ghost predicate Reachable(maxConcurrency: int, p: Pool) {
    exists past :: History(maxConcurrency, past) && past[|past| - 1] == p
  }

  lemma StartReachable(maxConcurrency: int)
    ensures Reachable(maxConcurrency, NO_TASKS)
  {
    assert History(maxConcurrency, [NO_TASKS]);
  }

  lemma NextReachable(maxConcurrency: int, p: Pool, e: Event)
    requires Reachable(maxConcurrency, p) && May(maxConcurrency, e, p)
    ensures Reachable(maxConcurrency, Next(e, p))
  {
    var past :| History(maxConcurrency, past) && past[|past| - 1] == p;
    assert Moves(maxConcurrency, p, Next(e, p));
    assert History(maxConcurrency, past + [Next(e, p)]);
  }

  // With one slot a task cannot overlap itself: nothing is live while the map is empty.
  lemma {:induction false} OneSlotTracks(maxConcurrency: int, past: seq<Pool>)
    requires maxConcurrency <= 1 && History(maxConcurrency, past)
    ensures
      var p := past[|past| - 1];
      Tracks(p.running, p.live) && |p.live| <= Cap(maxConcurrency)
    decreases |past|
  {
    if |past| > 1 {
      var before, after := past[|past| - 2], past[|past| - 1];
      OneSlotTracks(maxConcurrency, past[..|past| - 1]);
      assert Moves(maxConcurrency, before, after);
      var e :| May(maxConcurrency, e, before) && after == Next(e, before);
      match e
      case Started(id) =>
        assert before.running == map[];
        assert before.live == {};
        SchedulingTracksIff(before.running, before.live, (id, before.launched));
      case Finished(gone) =>
        FinishingTracks(before.running, before.live, gone);
        FewerLeft(before.live, gone);
    }
  }

  lemma FewerLeft(live: set<Handle>, gone: set<Handle>)
    ensures |live - gone| <= |live|
  {
    assert live - gone + (live * gone) == live;
  }

  // The map is empty, and n executions are live.
  ghost predicate Stray(p: Pool, n: nat) {
    p.running == map[] && |p.live| == n && forall h :: h in p.live ==> h.1 < p.launched
  }

  // With two slots, task 0 is claimed again while an execution of it is live;
  // the elder finishes and pops its successor's entry. The map is empty and one
  // more execution is live; and so on, without bound.
  lemma {:induction false} PopByKeyOverfills(maxConcurrency: int, n: nat) returns (p: Pool)
    requires maxConcurrency >= 2
    ensures Reachable(maxConcurrency, p) && Stray(p, n)
  {
    if n == 0 {
      p := NO_TASKS;
      StartReachable(maxConcurrency);
    } else {
      var q := PopByKeyOverfills(maxConcurrency, n - 1);
      NextReachable(maxConcurrency, q, Started(0));
      var once := Next(Started(0), q);
      assert once.running == map[0 := q.launched];
      NextReachable(maxConcurrency, once, Started(0));
      NextReachable(maxConcurrency, Next(Started(0), once), Finished({(0, q.launched)}));
      p := Next(Finished({(0, q.launched)}), Next(Started(0), once));
      ElderPops(q, n - 1);
    }
  }

  lemma ElderPops(p: Pool, n: nat)
    requires Stray(p, n)
    ensures Stray(Next(Finished({(0, p.launched)}), Next(Started(0), Next(Started(0), p))), n + 1)
  {
    var elder := (0, p.launched);
    StartedTwice(p);
    PopsOne(p.launched + 1, elder);
    YoungerStays(p.live, p.launched);
  }

  lemma StartedTwice(p: Pool)
    requires p.running == map[]
    ensures
      Next(Started(0), Next(Started(0), p)) ==
      Pool(map[0 := p.launched + 1], p.live + {(0, p.launched)} + {(0, p.launched + 1)}, p.launched + 2)
  {
    assert p.running[0 := p.launched][0 := p.launched + 1] == map[0 := p.launched + 1];
  }

  lemma YoungerStays(live: set<Handle>, launched: nat)
    requires forall h :: h in live ==> h.1 < launched
    ensures live + {(0, launched)} + {(0, launched + 1)} - {(0, launched)} == live + {(0, launched + 1)}
    ensures |live + {(0, launched + 1)}| == |live| + 1
  {
  }

  lemma PopsOne(n: nat, elder: Handle)
    requires elder.0 == 0
    ensures Popped(map[0 := n], {elder}) == map[]
  {
    assert elder in {elder};
  }

  // The limit holds of live executions, whatever the loop claims, if and only
  // if it is at most one.
  lemma {:induction false} LiveWithinLimitIff(maxConcurrency: int)
    ensures
      (forall p :: Reachable(maxConcurrency, p) ==> |p.live| <= Cap(maxConcurrency)) <==> maxConcurrency <= 1
  {
    if maxConcurrency <= 1 {
      forall p | Reachable(maxConcurrency, p) ensures |p.live| <= Cap(maxConcurrency) {
        var past :| History(maxConcurrency, past) && past[|past| - 1] == p;
        OneSlotTracks(maxConcurrency, past);
      }
    } else {
      var p := PopByKeyOverfills(maxConcurrency, maxConcurrency + 1);
    }
  }

  // What the loop keeps: the map within the limit, and, as long as no claim
  // overlapped a live execution, the executions too.
  ghost predicate Within(maxConcurrency: int, overlapped: bool, p: Pool) {
    && |p.running| <= Cap(maxConcurrency)
    && (forall h :: h in p.live ==> h.1 < p.launched)
    && p.running.Items <= p.live
    && (!overlapped ==> Tracks(p.running, p.live) && |p.live| == |p.running|)
    && (maxConcurrency <= 1 ==> !overlapped)
  }

  lemma TrackedAsMany(running: map<TaskId, nat>, live: set<Handle>)
    requires Tracks(running, live)
    ensures |live| == |running|
  {
    assert running.Keys == set h | h in live :: h.0 by {
      assert forall id :: id in running ==> (id, running[id]) in running.Items;
    }
    SameSize(running);
  }

  lemma {:induction false} SameSize(running: map<TaskId, nat>)
    ensures |running.Items| == |running|
  {
  }

  ghost predicate FreeIn(p: Pool, id: TaskId) {
    forall h :: h in p.live ==> h.0 != id
  }

  lemma StartKeeps(maxConcurrency: int, overlapped: bool, p: Pool, id: TaskId)
    requires Within(maxConcurrency, overlapped, p) && |p.running| < maxConcurrency
    requires !overlapped ==> FreeIn(p, id)
    ensures Within(maxConcurrency, overlapped, Next(Started(id), p))
  {
    var h, after := (id, p.launched), Next(Started(id), p);
    assert after.running.Keys == p.running.Keys + {id};
    StartedIsLive(p.running, p.live, h);
    if !overlapped {
      RunningIsLive(p.running, p.live, id);
      SchedulingTracksIff(p.running, p.live, h);
      TrackedAsMany(after.running, after.live);
    }
  }

  lemma RunningIsLive(running: map<TaskId, nat>, live: set<Handle>, id: TaskId)
    requires running.Items <= live
    ensures id in running ==> (id, running[id]) in live
  {
    assert id in running ==> (id, running[id]) in running.Items;
  }

  lemma StartedIsLive(running: map<TaskId, nat>, live: set<Handle>, h: Handle)
    requires running.Items <= live
    ensures Scheduled(running, h).Items <= live + {h}
  {
    forall x | x in Scheduled(running, h).Items ensures x in live + {h} {
      assert x == h || x in running.Items;
    }
  }

  lemma FinishKeeps(maxConcurrency: int, overlapped: bool, p: Pool, gone: set<Handle>)
    requires Within(maxConcurrency, overlapped, p) && gone <= p.live
    ensures Within(maxConcurrency, overlapped, Next(Finished(gone), p))
    ensures |Popped(p.running, gone)| <= |p.running|
  {
    if !overlapped {
      FinishingTracks(p.running, p.live, gone);
      TrackedAsMany(Popped(p.running, gone), p.live - gone);
    }
    assert Popped(p.running, gone).Keys + (p.running.Keys - Popped(p.running, gone).Keys) == p.running.Keys;
  }

  class TaskDispatcher {
    const dao: TaskDao
    const workerId: WorkerId
    const lease: Time
    const maxConcurrency: int
    const maxBatchSize: int
    const reclaimInterval: Time
    var running: map<TaskId, nat>
    var lastReclaimAt: Time
    var launched: nat
    var live: set<Handle>                  // the executions the event loop still runs
    ghost var claimed: multiset<TaskId>    // every id a committed claim took
    ghost var scheduled: multiset<TaskId>  // every id an execution was started for
    ghost var abandoned: multiset<TaskId>  // every id whose claim raised, or was cut off, after its commit
    ghost var overlapped: bool             // a claim took a task still being worked on
    ghost var peakRunning: nat
    ghost var peakLive: nat

    constructor (dao: TaskDao, workerId: WorkerId, lease: Time, maxConcurrency: int, maxBatchSize: int)
      ensures this.dao == dao && this.workerId == workerId && this.lease == lease
      ensures this.maxConcurrency == maxConcurrency && this.maxBatchSize == maxBatchSize
      ensures reclaimInterval == (if lease > 60.0 then lease / 2.0 else 30.0)
      ensures Valid() && running == map[] && !overlapped && claimed == scheduled == abandoned == multiset{}
    {
      this.dao, this.workerId, this.lease := dao, workerId, lease;
      this.maxConcurrency, this.maxBatchSize := maxConcurrency, maxBatchSize;
      reclaimInterval := ReclaimInterval(lease);
      running, lastReclaimAt, launched := map[], 0.0, 0;
      live, claimed, scheduled, abandoned, overlapped := {}, multiset{}, multiset{}, multiset{}, false;
      peakRunning, peakLive := 0, 0;
      StartReachable(maxConcurrency);
    }

    ghost function ThePool(): Pool
      reads this
    {
      Pool(running, live, launched)
    }

    ghost predicate Sound()
      reads this
    {
      Reachable(maxConcurrency, ThePool()) && Within(maxConcurrency, overlapped, ThePool())
    }

    ghost predicate Valid()
      reads this
    {
      && Sound()
      && |running| <= peakRunning <= Cap(maxConcurrency)
      && (!overlapped ==> |live| <= peakLive <= Cap(maxConcurrency))
    }

    // Everyone else's turn, while this dispatcher awaits.
    method Others()
      requires Valid() && Shaped(dao.rows)
      modifies this`running, this`live, dao
      ensures Valid() && Shaped(dao.rows)
      ensures running.Keys <= old(running).Keys && |running| <= |old(running)| && live <= old(live)
    {
      var t: Table :| Shaped(t);
      dao.rows := t;
      var gone: set<Handle> :| gone <= live;
      NextReachable(maxConcurrency, ThePool(), Finished(gone));
      FinishKeeps(maxConcurrency, overlapped, ThePool(), gone);
      FewerLeft(live, gone);
      running := Popped(running, gone);
      live := live - gone;
    }

    method RecoverZombieTasks(includeOwnLocks: bool, at: Time)
      requires Shaped(dao.rows)
      modifies dao
      ensures dao.rows == After(Op.Reclaim(old(dao.rows).Keys, workerId, includeOwnLocks, Reason(includeOwnLocks), at), at, old(dao.rows))
      ensures Shaped(dao.rows) && dao.rows.Keys == old(dao.rows).Keys
      ensures forall id :: id in dao.rows ==>
        if Reclaimable(old(dao.rows)[id], workerId, includeOwnLocks, at) then
          Due(dao.rows[id], at) && dao.rows[id].retryCount == old(dao.rows)[id].retryCount
        else dao.rows[id] == old(dao.rows)[id]
    {
      var n := dao.ReclaimInFlight(workerId, includeOwnLocks, Reason(includeOwnLocks), at);
    }

    method ClaimBatch(limit: int, at: Time, skip: set<TaskId>) returns (ids: set<TaskId>)
      requires Shaped(dao.rows)
      modifies dao
      ensures dao.rows == After(Op.Claim(ids, limit, workerId, lease, at), at, old(dao.rows))
      ensures Shaped(dao.rows) && dao.rows.Keys == old(dao.rows).Keys
      ensures ids <= dao.rows.Keys && |ids| <= Cap(limit)
      ensures forall id :: id in dao.rows ==>
        if id in ids then
          && Due(old(dao.rows)[id], at) && dao.rows[id].lockedBy == Some(workerId)
          && dao.rows[id].status == Transcribing && dao.rows[id].retryCount == old(dao.rows)[id].retryCount
          && dao.rows[id].leaseExpiresAt == Some(at + lease)
        else dao.rows[id] == old(dao.rows)[id]
      ensures Picked(old(dao.rows), at, skip, Cap(limit), ids)
      ensures limit > 0 && |ids| < limit ==> forall id :: id in dao.rows && Due(dao.rows[id], at) ==> id in skip
    {
      ghost var before := dao.rows;
      ids := dao.ClaimPending(limit, workerId, lease, at, skip);
      if limit > 0 && |ids| < limit {
        FullPick(before, Eligible(before, at, skip), limit, ids);
      }
    }

    method ReclaimAndClaim(limit: int, clock: Time, at: Time, skip: set<TaskId>) returns (ids: set<TaskId>)
      requires Valid() && Shaped(dao.rows) && |running| < maxConcurrency
      modifies this`lastReclaimAt, this`claimed, this`overlapped, dao
      ensures Valid() && Shaped(dao.rows)
      ensures
        var due := clock - old(lastReclaimAt) >= reclaimInterval;
        && lastReclaimAt == (if due then clock else old(lastReclaimAt))
        && Dispatched(old(dao.rows), due, Cap(limit), workerId, lease, at, skip, ids, dao.rows)
      // What is claimed was pending and due, and the whole is a run of the queue.
      ensures
        var pre := ReclaimedIfDue(old(dao.rows), clock - old(lastReclaimAt) >= reclaimInterval, workerId, at);
        && (forall id :: id in ids ==> id in pre && Due(pre[id], at))
        && dao.rows == After(Op.Claim(ids, limit, workerId, lease, at), at, pre)
      ensures 0.0 <= lease ==>
        IsTransaction(old(dao.rows), clock - old(lastReclaimAt) >= reclaimInterval, workerId, ids, limit, lease, at, dao.rows)
      ensures forall id :: id in ids ==>
        && dao.rows[id].status == Transcribing && dao.rows[id].lockedBy == Some(workerId)
        && dao.rows[id].leaseExpiresAt == Some(at + lease)
      ensures |ids| <= Cap(limit) && claimed == old(claimed) + multiset(ids)
      ensures overlapped <==> old(overlapped) || exists h :: h in live && h.0 in ids
      ensures dao.rows.Keys == old(dao.rows).Keys && ids <= dao.rows.Keys
      ensures forall id :: id in dao.rows ==> dao.rows[id].retryCount == old(dao.rows)[id].retryCount
      // After a reclaim no lapsed lease is left: the task is claimed or due.
      ensures clock - old(lastReclaimAt) >= reclaimInterval ==>
        forall id :: id in dao.rows && old(dao.rows)[id].status.InFlight() && LeaseExpired(old(dao.rows)[id], at) ==>
          Due(dao.rows[id], at) || (id in ids && dao.rows[id].lockedBy == Some(workerId))
      // What stays due was locked by others or did not fit.
      ensures limit > 0 && |ids| < limit ==> forall id :: id in dao.rows && Due(dao.rows[id], at) ==> id in skip
    {
      var due := clock - lastReclaimAt >= reclaimInterval;
      if due {
        lastReclaimAt := clock;
        RecoverZombieTasks(false, at);
      }
      ids := ClaimBatch(limit, at, skip);
      NoteClaim(ids);
      PickDispatches(old(dao.rows), due, Cap(limit), workerId, limit, lease, at, skip, ids);
      ItIsARun(old(dao.rows), due, ids, limit, at, dao.rows);
    }

    lemma ItIsARun(before: Table, due: bool, ids: set<TaskId>, limit: int, at: Time, after: Table)
      requires |ids| <= Cap(limit)
      requires
        var pre := ReclaimedIfDue(before, due, workerId, at);
        && (forall id :: id in ids ==> id in pre && Due(pre[id], at))
        && after == After(Op.Claim(ids, limit, workerId, lease, at), at, pre)
      ensures 0.0 <= lease ==> IsTransaction(before, due, workerId, ids, limit, lease, at, after)
    {
      if 0.0 <= lease {
        forall maxRetries: nat, s: State | s.rows == before && at <= s.now
          ensures IsRunFrom(maxRetries, s, TransactionOps(s.rows, due, workerId, ids, limit, lease, at), after)
        {
          TransactionIsRun(maxRetries, s, due, workerId, ids, limit, lease, at);
        }
      }
    }

    // What the claim means for the executions.
    ghost method NoteClaim(ids: set<TaskId>)
      requires Valid() && |running| < maxConcurrency
      modifies this`claimed, this`overlapped
      ensures Valid() && claimed == old(claimed) + multiset(ids)
      ensures overlapped <==> old(overlapped) || exists h :: h in live && h.0 in ids
    {
      claimed := claimed + multiset(ids);
      overlapped := overlapped || exists h :: h in live && h.0 in ids;
    }

    method ScheduleTask(id: TaskId)
      requires Valid() && |running| < maxConcurrency
      requires !overlapped ==> FreeIn(ThePool(), id)
      modifies this`running, this`live, this`launched, this`scheduled, this`peakRunning, this`peakLive
      ensures Valid()
      ensures running == old(running)[id := old(launched)] && live == old(live) + {(id, old(launched))}
      ensures launched == old(launched) + 1 && scheduled == old(scheduled) + multiset{id}
    {
      StartTask(id);
      scheduled := scheduled + multiset{id};
      if |running| > peakRunning {
        peakRunning := |running|;
      }
      if |live| > peakLive {
        peakLive := |live|;
      }
    }

    method StartTask(id: TaskId)
      requires Sound() && |running| < maxConcurrency
      requires !overlapped ==> FreeIn(ThePool(), id)
      modifies this`running, this`live, this`launched
      ensures Sound()
      ensures running == old(running)[id := old(launched)] && live == old(live) + {(id, old(launched))}
      ensures launched == old(launched) + 1
    {
      NextReachable(maxConcurrency, ThePool(), Started(id));
      StartKeeps(maxConcurrency, overlapped, ThePool(), id);
      ghost var after := Next(Started(id), ThePool());
      running, live, launched := Scheduled(running, (id, launched)), live + {(id, launched)}, launched + 1;
      assert ThePool() == after;
    }

    method ScheduleAll(ids: set<TaskId>)
      requires Valid() && |running| + |ids| <= Cap(maxConcurrency)
      requires !overlapped ==> forall h :: h in live ==> h.0 !in ids
      modifies this`running, this`live, this`launched, this`scheduled, this`peakRunning, this`peakLive
      ensures Valid() && scheduled == old(scheduled) + multiset(ids)
      ensures ids <= running.Keys
    {
      var todo := ids;
      while todo != {}
        invariant Valid() && todo <= ids && |running| + |todo| <= Cap(maxConcurrency)
        invariant !overlapped ==> forall h :: h in live ==> h.0 !in todo
        invariant scheduled + multiset(todo) == old(scheduled) + multiset(ids)
        invariant ids <= running.Keys + todo
        decreases |todo|
      {
        var id :| id in todo;
        TakeOne(todo, id);
        ScheduleTask(id);
        todo := todo - {id};
      }
    }

    static lemma TakeOne(todo: set<TaskId>, id: TaskId)
      requires id in todo
      ensures |todo - {id}| == |todo| - 1
      ensures multiset(todo) == multiset{id} + multiset(todo - {id})
    {
    }

    // A claim transaction that is rolled back changes no row; the reclaim then
    // counts as made all the same if it had got that far.
    method AbortedClaim(clock: Time)
      requires Valid()
      modifies this`lastReclaimAt
      ensures Valid()
      ensures lastReclaimAt == old(lastReclaimAt) || (clock - old(lastReclaimAt) >= reclaimInterval && lastReclaimAt == clock)
    {
      if clock - lastReclaimAt >= reclaimInterval {
        if * {
          lastReclaimAt := clock;
        }
      }
    }

    method MaybeReclaimExpiredLeases(it: Iteration)
      requires Valid() && Shaped(dao.rows)
      modifies this`lastReclaimAt, dao
      ensures Valid() && Shaped(dao.rows)
      ensures
        var due := it.clock - old(lastReclaimAt) >= reclaimInterval;
        && lastReclaimAt == (if due then it.clock else old(lastReclaimAt))
        && (if it.end.Commits() then Dispatched(old(dao.rows), due, 0, workerId, lease, it.at, it.skip, {}, dao.rows)
            else dao.rows == old(dao.rows))
    {
      if it.clock - lastReclaimAt >= reclaimInterval {
        lastReclaimAt := it.clock;
        if it.end.Commits() {
          RecoverZombieTasks(false, it.at);
        }
      }
    }

    // What an iteration does, from what it is given.
    ghost predicate GoodTurn(it: Iteration, rec: Record) {
      var due := it.clock - rec.reclaimedAt >= reclaimInterval;
      var room := Cap(Least(maxConcurrency - rec.inFlight, maxBatchSize));
      && (if it.end.Commits() then
            && Dispatched(rec.before, due, room, workerId, lease, it.at, it.skip, rec.ids, rec.after)
            && rec.reclaimedAtAfter == (if due then it.clock else rec.reclaimedAt)
          else
            && rec.ids == {} && rec.after == rec.before
            && (rec.reclaimedAtAfter == rec.reclaimedAt || (due && rec.reclaimedAtAfter == it.clock)))
    }

    // One iteration; `it.end` is how its transaction ends. An exception is logged,
    // and the loop goes on. What is claimed is running in the end, but for a
    // claim that did not return after its commit: its rows stay in flight under
    // a lease that nobody renews.
    method Turn(it: Iteration) returns (ids: set<TaskId>, ghost rec: Record)
      requires Valid() && Shaped(dao.rows)
      modifies this, dao
      ensures Valid() && Shaped(dao.rows)
      ensures rec.before == old(dao.rows) && rec.inFlight == old(|running|) && rec.reclaimedAt == old(lastReclaimAt)
      ensures rec.ids == ids && rec.reclaimedAtAfter == lastReclaimAt && GoodTurn(it, rec)
      ensures Accounted(ids, it.end, old(claimed), old(scheduled), old(abandoned))
      ensures |running| <= Cap(maxConcurrency)
      ensures it.end == Returns ==> ids <= running.Keys
      ensures it.end != Returns || old(|running|) >= maxConcurrency ==> dao.rows == rec.after
    {
      if |running| >= maxConcurrency {
        rec := FullTurn(it);
        ids := {};
      } else {
        ids, rec := RoomyTurn(it);
      }
    }

    method FullTurn(it: Iteration) returns (ghost rec: Record)
      requires Valid() && Shaped(dao.rows) && |running| >= maxConcurrency
      modifies this`lastReclaimAt, dao
      ensures Valid() && Shaped(dao.rows)
      ensures rec == Record(old(dao.rows), old(|running|), old(lastReclaimAt), {}, dao.rows, lastReclaimAt) && GoodTurn(it, rec)
    {
      MaybeReclaimExpiredLeases(it);
      rec := Record(old(dao.rows), |running|, old(lastReclaimAt), {}, dao.rows, lastReclaimAt);
    }

    method RoomyTurn(it: Iteration) returns (ids: set<TaskId>, ghost rec: Record)
      requires Valid() && Shaped(dao.rows) && |running| < maxConcurrency
      modifies this, dao
      ensures Valid() && Shaped(dao.rows)
      ensures rec == Record(old(dao.rows), old(|running|), old(lastReclaimAt), ids, rec.after, lastReclaimAt) && GoodTurn(it, rec)
      ensures Accounted(ids, it.end, old(claimed), old(scheduled), old(abandoned))
      ensures it.end == Returns ==> ids <= running.Keys
      ensures it.end != Returns ==> dao.rows == rec.after
    {
      ghost var inflight := |running|;
      ghost var after;
      ids, after := ClaimTurn(Least(maxConcurrency - |running|, maxBatchSize), it);
      rec := Record(old(dao.rows), inflight, old(lastReclaimAt), ids, after, lastReclaimAt);
    }

    ghost predicate Accounted(
      ids: set<TaskId>, end: End, claimed0: multiset<TaskId>, scheduled0: multiset<TaskId>, abandoned0: multiset<TaskId>)
      reads this
    {
      && claimed == claimed0 + multiset(ids)
      && scheduled == scheduled0 + (if end == Returns then multiset(ids) else multiset{})
      && abandoned == abandoned0 + (if end == Returns then multiset{} else multiset(ids))
    }

    method ClaimTurn(batch: int, it: Iteration) returns (ids: set<TaskId>, ghost after: Table)
      requires Valid() && Shaped(dao.rows) && |running| < maxConcurrency && batch <= maxConcurrency - |running|
      modifies this, dao
      ensures Valid() && Shaped(dao.rows)
      ensures Accounted(ids, it.end, old(claimed), old(scheduled), old(abandoned))
      ensures it.end == Returns ==> ids <= running.Keys
      ensures it.end != Returns ==> dao.rows == after
      ensures
        var due := it.clock - old(lastReclaimAt) >= reclaimInterval;
        if it.end.Commits() then
          && Dispatched(old(dao.rows), due, Cap(batch), workerId, lease, it.at, it.skip, ids, after)
          && lastReclaimAt == (if due then it.clock else old(lastReclaimAt))
        else
          && ids == {} && after == old(dao.rows)
          && (lastReclaimAt == old(lastReclaimAt) || (due && lastReclaimAt == it.clock))
    {
      if it.end.Commits() {
        ids, after := ClaimAndSchedule(batch, it);
      } else {
        ids, after := {}, dao.rows;
        AbortedClaim(it.clock);
      }
    }

    method ClaimAndSchedule(batch: int, it: Iteration) returns (ids: set<TaskId>, ghost after: Table)
      requires Valid() && Shaped(dao.rows) && |running| < maxConcurrency && batch <= maxConcurrency - |running|
      requires it.end.Commits()
      modifies this, dao
      ensures Valid() && Shaped(dao.rows)
      ensures Accounted(ids, it.end, old(claimed), old(scheduled), old(abandoned))
      ensures it.end == Returns ==> ids <= running.Keys
      ensures it.end != Returns ==> dao.rows == after
      ensures
        var due := it.clock - old(lastReclaimAt) >= reclaimInterval;
        && Dispatched(old(dao.rows), due, Cap(batch), workerId, lease, it.at, it.skip, ids, after)
        && lastReclaimAt == (if due then it.clock else old(lastReclaimAt))
    {
      ids := Take(batch, it);
      after := dao.rows;
      if it.end == RaisesLate {
        abandoned := abandoned + multiset(ids);
      } else {
        ScheduleClaimed(ids);
      }
    }

    // What the rest of the iteration needs to know of the claim.
    method Take(limit: int, it: Iteration) returns (ids: set<TaskId>)
      requires Valid() && Shaped(dao.rows) && |running| < maxConcurrency
      modifies this`lastReclaimAt, this`claimed, this`overlapped, dao
      ensures Valid() && Shaped(dao.rows)
      ensures |ids| <= Cap(limit) && claimed == old(claimed) + multiset(ids)
      ensures !overlapped ==> forall h :: h in live ==> h.0 !in ids
      ensures
        var due := it.clock - old(lastReclaimAt) >= reclaimInterval;
        && lastReclaimAt == (if due then it.clock else old(lastReclaimAt))
        && Dispatched(old(dao.rows), due, Cap(limit), workerId, lease, it.at, it.skip, ids, dao.rows)
    {
      ids := ReclaimAndClaim(limit, it.clock, it.at, it.skip);
    }

    method ScheduleClaimed(ids: set<TaskId>)
      requires Valid() && Shaped(dao.rows) && |running| + |ids| <= Cap(maxConcurrency)
      requires !overlapped ==> forall h :: h in live ==> h.0 !in ids
      modifies this`running, this`live, this`launched, this`scheduled, this`peakRunning, this`peakLive, dao
      ensures Valid() && Shaped(dao.rows) && scheduled == old(scheduled) + multiset(ids)
      ensures ids <= running.Keys
    {
      Others();
      ScheduleAll(ids);
    }

    // Runs until the stop event, or until it is cancelled: one iteration for
    // each that it is given. The reclaim timer runs through them.
    method DispatcherLoop(given: seq<Iteration>) returns (ghost log: seq<Record>)
      requires Valid() && Shaped(dao.rows) && claimed == scheduled + abandoned
      modifies this, dao
      ensures Valid() && Shaped(dao.rows)
      ensures GoodLog(given, log) && Timed(log, old(lastReclaimAt), lastReclaimAt)
      ensures peakRunning <= Cap(maxConcurrency)
      ensures !overlapped || maxConcurrency <= 1 ==> peakLive <= Cap(maxConcurrency)
      ensures Reachable(maxConcurrency, Pool(running, live, launched))
      ensures claimed == scheduled + abandoned
    {
      log := [];
      var turn := 0;
      while turn < |given|
        invariant 0 <= turn <= |given|
        invariant Valid() && Shaped(dao.rows) && claimed == scheduled + abandoned
        invariant GoodLog(given[..turn], log) && Timed(log, old(lastReclaimAt), lastReclaimAt)
      {
        ghost var rec := Iterate(given[turn]);
        LogMore(given[..turn], log, given[turn], rec);
        TimedMore(log, old(lastReclaimAt), rec);
        assert given[..turn + 1] == given[..turn] + [given[turn]];
        log := log + [rec];
        turn := turn + 1;
      }
      assert given[..turn] == given;
    }

    method Iterate(it: Iteration) returns (ghost rec: Record)
      requires Valid() && Shaped(dao.rows) && claimed == scheduled + abandoned
      modifies this, dao
      ensures Valid() && Shaped(dao.rows) && claimed == scheduled + abandoned
      ensures GoodTurn(it, rec) && rec.reclaimedAt == old(lastReclaimAt) && rec.reclaimedAtAfter == lastReclaimAt
    {
      Others();
      var ids;
      ids, rec := Turn(it);
    }

    ghost predicate GoodLog(given: seq<Iteration>, log: seq<Record>) {
      |log| == |given| && forall i :: 0 <= i < |log| ==> GoodTurn(given[i], log[i])
    }

    lemma LogMore(given: seq<Iteration>, log: seq<Record>, it: Iteration, rec: Record)
      requires GoodLog(given, log) && GoodTurn(it, rec)
      ensures GoodLog(given + [it], log + [rec])
    {
    }
  }

  lemma TimedMore(log: seq<Record>, first: Time, rec: Record)
    requires Timed(log, first, rec.reclaimedAt)
    ensures Timed(log + [rec], first, rec.reclaimedAtAfter)
  {
  }

  // The timer of each iteration is what the one before left.
  ghost predicate Timed(log: seq<Record>, first: Time, last: Time) {
    if log == [] then first == last
    else
      && log[0].reclaimedAt == first && log[|log| - 1].reclaimedAtAfter == last
      && forall i :: 0 <= i < |log| - 1 ==> log[i].reclaimedAtAfter == log[i + 1].reclaimedAt
  }
}
