// Leases in time. If renewals land in time, the lease of a live execution
// never expires; then no reclaimer takes its task, no worker can claim a task
// it is still working on, and the fence of Executions holds with no further
// hypothesis than distinct worker ids.
module Leases {
  import opened Options
  import opened Tasks
  import opened QueueLaws
  import opened Executions

  function RenewInterval(lease: Time): Time {
    if lease / 3.0 > 5.0 then lease / 3.0 else 5.0
  }

  // `deadline` is the time by which an execution's next renewal, or its last
  // statement, reaches the database.
  datatype Timed = Timed(sys: Sys, deadline: map<Key, Time>)

  // An act; a renewal is followed by another at most `late` after it is due.
  datatype Move = Move(act: Act, late: Time)

  function DeadlineAfter(lease: Time, m: Move, t: Timed): map<Key, Time> {
    match m.act
    case ClaimTasks(claim) =>
      if claim.Claim? then
        t.deadline + map key | key in Claimed(claim, t.sys.base) :: claim.at + lease
      else t.deadline
    case Enter(key, _) => t.deadline[key := t.sys.base.now + RenewInterval(lease) + m.late]
    case RenewAgain(key, _) => t.deadline[key := t.sys.base.now + RenewInterval(lease) + m.late]
    case _ => t.deadline
  }

  function Make(lease: Time, m: Move, t: Timed): Timed {
    Timed(Do(m.act, t.sys), DeadlineAfter(lease, m, t))
  }

  // Every live execution acts by its deadline; own locks are taken back only by
  // a worker with no such execution left: at its start, or after cancelling it.
  ghost predicate OnTime(lease: Time, m: Move, t: Timed) {
    match m.act
    case ClaimTasks(claim) => claim.Claim? ==> claim.lease == lease && t.sys.base.now <= claim.at + lease
    case Enter(_, l) => l == lease && 0.0 <= m.late <= lease - RenewInterval(lease)
    case RenewAgain(_, l) => l == lease && 0.0 <= m.late <= lease - RenewInterval(lease)
    case World(op) =>
      (match op
       case Tick(elapsed) =>
         forall key :: key in t.sys.live && key in t.deadline ==> t.sys.base.now + elapsed <= t.deadline[key]
       case Reclaim(_, worker, own, _, _) =>
         own ==> forall key :: key in t.sys.live ==> t.sys.live[key].worker != worker
       case ResetAborted(ids, worker, _) =>
         forall key :: key in t.sys.live && key.0 in ids ==> t.sys.live[key].worker != worker
       case _ => true)
    case _ => true
  }

  ghost predicate Holds(t: Timed, key: Key)
    requires key in t.sys.live
  {
    && key in t.deadline
    && t.sys.base.now <= t.deadline[key]
    && (key.0 in t.sys.base.rows && key.0 in t.sys.base.log ==>
          var r := t.sys.base.rows[key.0];
          && key.1 == t.sys.base.log[key.0].claims
          && r.status.InFlight()
          && r.leaseExpiresAt.Some? && t.deadline[key] <= r.leaseExpiresAt.value)
  }

  ghost predicate TimedInv(maxRetries: nat, t: Timed) {
    && SysInv(maxRetries, t.sys)
    && forall key :: key in t.sys.live ==> Holds(t, key)
  }

  // A live execution's task is never pending, so nobody claims it again.
  lemma NobodyReclaims(maxRetries: nat, act: Act, t: Timed)
    requires TimedInv(maxRetries, t) && Can(maxRetries, act, t.sys)
    ensures NoSelfReclaim(act, t.sys)
  {
    forall key | key in t.sys.live
      ensures key.0 in t.sys.base.rows ==> t.sys.base.rows[key.0].status.InFlight()
    {
      assert Holds(t, key) && ExecInv(t.sys, key);
    }
  }

  lemma WorldHolds(maxRetries: nat, lease: Time, m: Move, t: Timed, key: Key)
    requires TimedInv(maxRetries, t) && Can(maxRetries, m.act, t.sys) && OnTime(lease, m, t)
    requires m.act.World? && key in t.sys.live
    ensures Holds(Make(lease, m, t), key)
  {
    assert Holds(t, key) && ExecInv(t.sys, key);
    HolderKept(maxRetries, m.act.op, t.sys.base, key.0);
  }

  lemma NewClaimHolds(maxRetries: nat, lease: Time, m: Move, t: Timed, key: Key)
    requires Can(maxRetries, m.act, t.sys) && OnTime(lease, m, t)
    requires m.act.ClaimTasks? && m.act.claim.Claim? && key in Claimed(m.act.claim, t.sys.base)
    ensures key in Make(lease, m, t).sys.live && Holds(Make(lease, m, t), key)
  {
  }

  lemma OldClaimHolds(maxRetries: nat, lease: Time, m: Move, t: Timed, key: Key)
    requires TimedInv(maxRetries, t) && Can(maxRetries, m.act, t.sys)
    requires m.act.ClaimTasks? && m.act.claim.Claim? && key in t.sys.live && key !in Claimed(m.act.claim, t.sys.base)
    ensures key in Make(lease, m, t).sys.live && Holds(Make(lease, m, t), key)
  {
    assert Holds(t, key) && ExecInv(t.sys, key);
  }

  // Another execution's statement matches no row of this one.
  lemma OthersMiss(maxRetries: nat, act: Act, t: Timed, key: Key)
    requires TimedInv(maxRetries, t) && Can(maxRetries, act, t.sys) && key in t.sys.live
    requires !act.World? && !act.ClaimTasks? && !act.Crash? && act.key != key
    ensures !Hits(Sent(act, t.sys), t.sys.base, key.0)
  {
    assert Holds(t, key) && ExecInv(t.sys, key);
    if act.key in t.sys.live {
      assert Holds(t, act.key);
    }
  }

  lemma OwnHolds(maxRetries: nat, lease: Time, m: Move, t: Timed, key: Key)
    requires TimedInv(maxRetries, t) && Can(maxRetries, m.act, t.sys) && OnTime(lease, m, t)
    requires !m.act.World? && !m.act.ClaimTasks? && !m.act.Crash? && key in Make(lease, m, t).sys.live
    ensures Holds(Make(lease, m, t), key)
  {
    assert Holds(t, key) && ExecInv(t.sys, key);
    if m.act.key != key {
      OthersMiss(maxRetries, m.act, t, key);
    }
    if Sent(m.act, t.sys).Some? {
      HolderKept(maxRetries, Sent(m.act, t.sys).value, t.sys.base, key.0);
    }
  }

  lemma TimedInvStep(maxRetries: nat, lease: Time, m: Move, t: Timed)
    requires TimedInv(maxRetries, t) && Can(maxRetries, m.act, t.sys) && OnTime(lease, m, t)
    ensures TimedInv(maxRetries, Make(lease, m, t))
  {
    NobodyReclaims(maxRetries, m.act, t);
    SysInvStep(maxRetries, m.act, t.sys);
    var u := Make(lease, m, t);
    forall key | key in u.sys.live ensures Holds(u, key) {
      match m.act
      case World(_) => WorldHolds(maxRetries, lease, m, t, key);
      case ClaimTasks(claim) =>
        if key in Claimed(claim, t.sys.base) {
          NewClaimHolds(maxRetries, lease, m, t, key);
        } else {
          OldClaimHolds(maxRetries, lease, m, t, key);
        }
      case Crash(_) => assert Holds(t, key);
      case _ => OwnHolds(maxRetries, lease, m, t, key);
    }
  }

  ghost predicate TimedRun(maxRetries: nat, lease: Time, moves: seq<Move>, t: Timed)
    decreases |moves|
  {
    moves != [] ==>
      && Can(maxRetries, moves[0].act, t.sys)
      && OnTime(lease, moves[0], t)
      && TimedRun(maxRetries, lease, moves[1..], Make(lease, moves[0], t))
  }

  function MakeAll(lease: Time, moves: seq<Move>, t: Timed): Timed
    decreases |moves|
  {
    if moves == [] then t else MakeAll(lease, moves[1..], Make(lease, moves[0], t))
  }

  function Acts(moves: seq<Move>): seq<Act> {
    if moves == [] then [] else [moves[0].act] + Acts(moves[1..])
  }

  // Runs that are on time need no hypothesis on claims: they are runs of
  // Executions, with its fence and its results.
  lemma {:induction false} OnTimeRunsAreFenced(maxRetries: nat, lease: Time, moves: seq<Move>, t: Timed)
    requires TimedInv(maxRetries, t) && TimedRun(maxRetries, lease, moves, t)
    ensures CanRun(maxRetries, Acts(moves), t.sys)
    ensures DoAll(Acts(moves), t.sys) == MakeAll(lease, moves, t).sys
    ensures TimedInv(maxRetries, MakeAll(lease, moves, t))
    decreases |moves|
  {
    if moves != [] {
      NobodyReclaims(maxRetries, moves[0].act, t);
      TimedInvStep(maxRetries, lease, moves[0], t);
      OnTimeRunsAreFenced(maxRetries, lease, moves[1..], Make(lease, moves[0], t));
      assert Acts(moves)[1..] == Acts(moves[1..]);
    }
  }

  // A live execution keeps its task: it is the latest claim's, its lease has
  // not expired, and no periodic reclaim by any worker matches its row.
  lemma {:induction false} LiveLeasesNeverExpire(
    maxRetries: nat, lease: Time, moves: seq<Move>, start: Time, key: Key, other: WorkerId, at: Time)
    requires TimedRun(maxRetries, lease, moves, Timed(Idle(start), map[]))
    requires
      var s := MakeAll(lease, moves, Timed(Idle(start), map[])).sys;
      key in s.live && key.0 in s.base.rows && at <= s.base.now
    ensures
      var s := MakeAll(lease, moves, Timed(Idle(start), map[])).sys;
      var r := s.base.rows[key.0];
      && r.status.InFlight() && r.lockedBy == Some(s.live[key].worker)
      && key.1 == Book(s.base, key.0).claims
      && !LeaseExpired(r, s.base.now)
      && !Reclaimable(r, other, false, at)
  {
    OnTimeRunsAreFenced(maxRetries, lease, moves, Timed(Idle(start), map[]));
    var t := MakeAll(lease, moves, Timed(Idle(start), map[]));
    assert Holds(t, key) && ExecInv(t.sys, key);
  }

  // A task that is being worked on is being worked on once, whoever does.
  lemma {:induction false} OneExecutionPerTask(
    maxRetries: nat, lease: Time, moves: seq<Move>, start: Time, a: Key, b: Key)
    requires TimedRun(maxRetries, lease, moves, Timed(Idle(start), map[]))
    requires
      var s := MakeAll(lease, moves, Timed(Idle(start), map[])).sys;
      a in s.live && b in s.live && a.0 == b.0 && a.0 in s.base.rows
    ensures a == b
  {
    OnTimeRunsAreFenced(maxRetries, lease, moves, Timed(Idle(start), map[]));
    var t := MakeAll(lease, moves, Timed(Idle(start), map[]));
    assert Holds(t, a) && Holds(t, b) && ExecInv(t.sys, a);
  }

  // A third of the lease, but no less than 5 seconds.
  lemma RenewIntervalIs(lease: Time)
    ensures RenewInterval(lease) >= 5.0 && 3.0 * RenewInterval(lease) >= lease
    ensures RenewInterval(lease) == 5.0 || 3.0 * RenewInterval(lease) == lease
  {
  }

  // The 5-second floor on the interval: a loop that is never late outlives its
  // own lease exactly when the lease is at least 5 seconds.
  lemma PunctualLoopKeepsLeaseIff(lease: Time, r: Row, renewed: Time)
    requires 0.0 < lease && r.leaseExpiresAt == Some(renewed + lease)
    ensures !LeaseExpired(r, renewed + RenewInterval(lease)) <==> lease >= 5.0
    ensures RenewInterval(lease) < lease <==> lease > 5.0
  {
  }
}
