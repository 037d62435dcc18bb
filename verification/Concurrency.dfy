// The limit on concurrent executions, for any number of workers at once: each
// worker's map of running tasks beside the executions of the whole system.
module Concurrency {
  import opened Tasks
  import opened Protocol
  import opened Executions
  import opened Leases
  import D = Dispatcher

  // The executions of one worker.
  function Own(s: Sys, worker: WorkerId): set<Key> {
    set key | key in s.live && s.live[key].worker == worker
  }

  predicate ClaimsFor(act: Act, worker: WorkerId) {
    act.ClaimTasks? && act.claim.Claim? && act.claim.worker == worker
  }

  function Numbered(claim: Op, s: State): map<TaskId, nat>
    requires claim.Claim?
  {
    map id | id in claim.ids && id in s.log :: s.log[id].claims + 1
  }

  // Ending executions pop their task; a claim schedules all it returned.
  function MapAfter(act: Act, s: Sys, worker: WorkerId, running: map<TaskId, nat>): map<TaskId, nat> {
    if ClaimsFor(act, worker) then running + Numbered(act.claim, s.base)
    else D.Popped(running, Own(s, worker) - Own(Do(act, s), worker))
  }

  // The dispatcher claims no more than its map has room for.
  predicate HasRoom(limit: nat, act: Act, worker: WorkerId, running: map<TaskId, nat>) {
    ClaimsFor(act, worker) ==> |running| + |act.claim.ids| <= limit
  }

  lemma OwnKept(act: Act, s: Sys, worker: WorkerId)
    requires !ClaimsFor(act, worker)
    requires act.ClaimTasks? && act.claim.Claim? ==> Claimed(act.claim, s.base) !! s.live.Keys
    ensures Own(Do(act, s), worker) <= Own(s, worker)
  {
  }

  lemma ClaimedIsNew(maxRetries: nat, act: Act, s: Sys)
    requires SysInv(maxRetries, s) && act.ClaimTasks? && act.claim.Claim?
    ensures Claimed(act.claim, s.base) !! s.live.Keys
  {
    forall key | key in s.live ensures key !in Claimed(act.claim, s.base) {
      assert ExecInv(s, key);
    }
  }

  lemma OwnGrows(maxRetries: nat, act: Act, s: Sys, worker: WorkerId)
    requires SysInv(maxRetries, s) && ClaimsFor(act, worker)
    ensures Own(Do(act, s), worker) == Own(s, worker) + Claimed(act.claim, s.base)
  {
    ClaimedIsNew(maxRetries, act, s);
  }

  lemma NumberedIsClaimed(claim: Op, s: State)
    requires claim.Claim?
    ensures Numbered(claim, s).Items == Claimed(claim, s)
  {
    forall x: Key ensures x in Numbered(claim, s).Items <==> x in Claimed(claim, s) {
      assert x in Numbered(claim, s).Items <==> x.0 in Numbered(claim, s) && Numbered(claim, s)[x.0] == x.1;
    }
  }

  lemma UnionItems(a: map<TaskId, nat>, b: map<TaskId, nat>)
    requires a.Keys !! b.Keys
    ensures (a + b).Items == a.Items + b.Items
  {
    forall x: Key ensures x in (a + b).Items <==> x in a.Items + b.Items {
      assert x in (a + b).Items <==> x.0 in a + b && (a + b)[x.0] == x.1;
      assert x in a.Items <==> x.0 in a && a[x.0] == x.1;
      assert x in b.Items <==> x.0 in b && b[x.0] == x.1;
    }
  }

  lemma ClaimTracks(maxRetries: nat, act: Act, s: Sys, worker: WorkerId, running: map<TaskId, nat>)
    requires SysInv(maxRetries, s) && ClaimsFor(act, worker) && NoSelfReclaim(act, s)
    requires D.Tracks(running, Own(s, worker))
    ensures D.Tracks(MapAfter(act, s, worker, running), Own(Do(act, s), worker))
  {
    forall id | id in running ensures id !in act.claim.ids {
      assert (id, running[id]) in running.Items;
    }
    OwnGrows(maxRetries, act, s, worker);
    NumberedIsClaimed(act.claim, s.base);
    UnionItems(running, Numbered(act.claim, s.base));
  }

  lemma TracksStep(maxRetries: nat, act: Act, s: Sys, worker: WorkerId, running: map<TaskId, nat>)
    requires SysInv(maxRetries, s) && NoSelfReclaim(act, s) && D.Tracks(running, Own(s, worker))
    ensures D.Tracks(MapAfter(act, s, worker, running), Own(Do(act, s), worker))
  {
    if ClaimsFor(act, worker) {
      ClaimTracks(maxRetries, act, s, worker, running);
    } else {
      if act.ClaimTasks? && act.claim.Claim? {
        ClaimedIsNew(maxRetries, act, s);
      }
      OwnKept(act, s, worker);
      var gone := Own(s, worker) - Own(Do(act, s), worker);
      D.FinishingTracks(running, Own(s, worker), gone);
      assert Own(s, worker) - gone == Own(Do(act, s), worker);
    }
  }

  lemma FitsStep(limit: nat, act: Act, s: Sys, worker: WorkerId, running: map<TaskId, nat>)
    requires HasRoom(limit, act, worker, running) && |running| <= limit
    ensures |MapAfter(act, s, worker, running)| <= limit
  {
    var after := MapAfter(act, s, worker, running);
    if ClaimsFor(act, worker) {
      FewerThanBoth(after.Keys, running.Keys, act.claim.ids);
    } else {
      FewerThanBoth(after.Keys, running.Keys, {});
    }
  }

  lemma FewerThanBoth(c: set<TaskId>, a: set<TaskId>, b: set<TaskId>)
    requires c <= a + b
    ensures |c| <= |a| + |b|
  {
    assert c + (a + b - c) == a + b;
    assert a + b == a + (b - a);
    assert (b - a) + (b * a) == b;
  }

  // ----- Whole runs

  function MapAfterAll(acts: seq<Act>, s: Sys, worker: WorkerId, running: map<TaskId, nat>): map<TaskId, nat>
    decreases |acts|
  {
    if acts == [] then running
    else MapAfterAll(acts[1..], Do(acts[0], s), worker, MapAfter(acts[0], s, worker, running))
  }

  predicate HasRoomRun(limit: nat, acts: seq<Act>, s: Sys, worker: WorkerId, running: map<TaskId, nat>)
    decreases |acts|
  {
    acts != [] ==>
      && HasRoom(limit, acts[0], worker, running)
      && HasRoomRun(limit, acts[1..], Do(acts[0], s), worker, MapAfter(acts[0], s, worker, running))
  }

  lemma {:induction false} MapTracksRun(
    maxRetries: nat, limit: nat, acts: seq<Act>, s: Sys, worker: WorkerId, running: map<TaskId, nat>)
    requires SysInv(maxRetries, s) && CanRun(maxRetries, acts, s) && HasRoomRun(limit, acts, s, worker, running)
    requires D.Tracks(running, Own(s, worker)) && |running| <= limit
    ensures D.Tracks(MapAfterAll(acts, s, worker, running), Own(DoAll(acts, s), worker))
    ensures |MapAfterAll(acts, s, worker, running)| <= limit
    decreases |acts|
  {
    if acts != [] {
      SysInvStep(maxRetries, acts[0], s);
      TracksStep(maxRetries, acts[0], s, worker, running);
      FitsStep(limit, acts[0], s, worker, running);
      MapTracksRun(maxRetries, limit, acts[1..], Do(acts[0], s), worker, MapAfter(acts[0], s, worker, running));
    }
  }

  // As long as no worker claims a task that an execution of its own is working
  // on, popping by task id keeps the map exact, and no more executions of the
  // worker are live than its map has room for.
  lemma {:induction false} LiveWithinLimit(maxRetries: nat, limit: nat, acts: seq<Act>, start: Time, worker: WorkerId)
    requires CanRun(maxRetries, acts, Idle(start)) && HasRoomRun(limit, acts, Idle(start), worker, map[])
    ensures D.Tracks(MapAfterAll(acts, Idle(start), worker, map[]), Own(DoAll(acts, Idle(start)), worker))
    ensures |Own(DoAll(acts, Idle(start)), worker)| <= limit
  {
    assert Own(Idle(start), worker) == {};
    MapTracksRun(maxRetries, limit, acts, Idle(start), worker, map[]);
    D.TrackedAsMany(MapAfterAll(acts, Idle(start), worker, map[]), Own(DoAll(acts, Idle(start)), worker));
  }

  // While renewals are on time that condition needs no assuming: no dispatcher
  // ever claims what it is working on, and the limit holds of live executions.
  lemma {:induction false} OnTimeWithinLimit(
    maxRetries: nat, limit: nat, lease: Time, moves: seq<Move>, start: Time, worker: WorkerId)
    requires TimedRun(maxRetries, lease, moves, Timed(Idle(start), map[]))
    requires HasRoomRun(limit, Acts(moves), Idle(start), worker, map[])
    ensures |Own(MakeAll(lease, moves, Timed(Idle(start), map[])).sys, worker)| <= limit
  {
    OnTimeRunsAreFenced(maxRetries, lease, moves, Timed(Idle(start), map[]));
    LiveWithinLimit(maxRetries, limit, Acts(moves), start, worker);
  }
}
