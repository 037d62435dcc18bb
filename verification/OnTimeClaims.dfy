// Claims as open transactions, executions, and renewals on time, all at once:
// no transaction ever picks a task that anyone is working on, so the fence
// needs no hypothesis on claims.
module OnTimeClaims {
  import opened Tasks
  import opened Protocol
  import opened Executions
  import L = Leases
  import C = Claims
  import F = FencedClaims

  datatype Joint = Joint(db: C.Db, timed: L.Timed)

  datatype Step =
    | Tx(tx: C.Step)
    | Other(move: L.Move)

  function Untimed(step: Step): F.Step {
    match step
    case Tx(tx) => F.Tx(tx)
    case Other(move) => F.Other(move.act)
  }

  function UntimedJoint(j: Joint): F.Joint {
    F.Joint(j.db, j.timed.sys)
  }

  function Moves(step: Step, j: Joint): seq<L.Move> {
    match step
    case Tx(tx) => Now(F.TxActs(tx, j.db))
    case Other(move) => [move]
  }

  function Now(acts: seq<Act>): seq<L.Move> {
    if acts == [] then [] else [L.Move(acts[0], 0.0)] + Now(acts[1..])
  }

  function Perform(lease: Time, step: Step, j: Joint): Joint {
    Joint(F.DbAfter(Untimed(step), UntimedJoint(j)), L.MakeAll(lease, Moves(step, j), j.timed))
  }

  // A claim commits within its lease; executions are on time.
  ghost predicate Enabled(maxRetries: nat, lease: Time, step: Step, j: Joint) {
    match step
    case Tx(tx) =>
      && !tx.Statement? && C.Enabled(maxRetries, tx, j.db)
      && (tx.Commit? && tx.tx in j.db.open ==>
            j.db.open[tx.tx].lease == lease && j.db.now <= j.db.open[tx.tx].at + lease)
    case Other(move) =>
      && !move.act.ClaimTasks? && Can(maxRetries, move.act, j.timed.sys) && L.OnTime(lease, move, j.timed)
      && (Sent(move.act, j.timed.sys).Some? ==>
            C.Enabled(maxRetries, C.Statement(Sent(move.act, j.timed.sys).value), j.db))
  }

  ghost predicate JointInv(maxRetries: nat, j: Joint) {
    C.DbInv(j.db) && C.Shows(j.db, j.timed.sys.base) && L.TimedInv(maxRetries, j.timed)
  }

  // What a transaction has locked was pending or had lapsed; what is being
  // worked on is in flight under a lease that has not.
  lemma NobodyWorksOnPicks(maxRetries: nat, j: Joint, x: C.TxId, key: Key)
    requires JointInv(maxRetries, j) && x in j.db.open && key in j.timed.sys.live
    ensures key.0 !in j.db.open[x].Locks()
  {
    assert C.TxInv(j.db.rows, j.db.now, j.db.open[x]);
    assert L.Holds(j.timed, key) && ExecInv(j.timed.sys, key);
  }

  lemma CommitIsOnTime(maxRetries: nat, lease: Time, x: C.TxId, j: Joint)
    requires JointInv(maxRetries, j) && Enabled(maxRetries, lease, Tx(C.Commit(x)), j) && x in j.db.open
    ensures F.Enabled(maxRetries, F.Tx(C.Commit(x)), UntimedJoint(j))
    ensures L.TimedRun(maxRetries, lease, Now(F.TxActs(C.Commit(x), j.db)), j.timed)
  {
    forall key | key in j.timed.sys.live ensures key.0 !in j.db.open[x].Picked() {
      NobodyWorksOnPicks(maxRetries, j, x, key);
    }
    F.CommitActs(maxRetries, x, UntimedJoint(j));
    PairOnTime(maxRetries, lease, C.ReclaimOp(j.db.open[x]), C.ClaimOp(j.db.open[x]), j.timed);
  }

  lemma PairOnTime(maxRetries: nat, lease: Time, reclaim: Op, claim: Op, t: L.Timed)
    requires reclaim.Reclaim? && !reclaim.own && claim.Claim?
    requires claim.lease == lease && t.sys.base.now <= claim.at + lease
    requires CanRun(maxRetries, [World(reclaim), ClaimTasks(claim)], t.sys)
    ensures L.TimedRun(maxRetries, lease, Now([World(reclaim), ClaimTasks(claim)]), t)
  {
    var first, second := L.Move(World(reclaim), 0.0), L.Move(ClaimTasks(claim), 0.0);
    assert [World(reclaim), ClaimTasks(claim)][1..] == [ClaimTasks(claim)];
    assert [ClaimTasks(claim)][1..] == [];
    assert Now([ClaimTasks(claim)]) == [second];
    assert Now([World(reclaim), ClaimTasks(claim)]) == [first, second];
    assert [first, second][1..] == [second];
    assert [second][1..] == [];
  }

  lemma JointStep(maxRetries: nat, lease: Time, step: Step, j: Joint)
    requires JointInv(maxRetries, j) && Enabled(maxRetries, lease, step, j)
    ensures F.Enabled(maxRetries, Untimed(step), UntimedJoint(j))
    ensures L.TimedRun(maxRetries, lease, Moves(step, j), j.timed)
  {
    if step.Other? {
      assert [step.move][1..] == [];
    } else if step.tx.Commit? && step.tx.tx in j.db.open {
      CommitIsOnTime(maxRetries, lease, step.tx.tx, j);
    }
  }

  lemma {:induction false} ActsOfNow(acts: seq<Act>)
    ensures L.Acts(Now(acts)) == acts
    decreases |acts|
  {
    if acts != [] {
      ActsOfNow(acts[1..]);
      assert Now(acts)[1..] == Now(acts[1..]);
      assert acts == [acts[0]] + acts[1..];
    }
  }

  lemma JointKept(maxRetries: nat, lease: Time, step: Step, j: Joint)
    requires JointInv(maxRetries, j) && Enabled(maxRetries, lease, step, j)
    ensures F.Enabled(maxRetries, Untimed(step), UntimedJoint(j))
    ensures UntimedJoint(Perform(lease, step, j)) == F.Perform(Untimed(step), UntimedJoint(j))
    ensures JointInv(maxRetries, Perform(lease, step, j))
  {
    JointStep(maxRetries, lease, step, j);
    F.JointStep(maxRetries, Untimed(step), UntimedJoint(j));
    L.OnTimeRunsAreFenced(maxRetries, lease, Moves(step, j), j.timed);
    SameActs(step, j);
  }

  lemma SameActs(step: Step, j: Joint)
    ensures L.Acts(Moves(step, j)) == F.Acts(Untimed(step), UntimedJoint(j))
  {
    match step
    case Tx(tx) => ActsOfNow(F.TxActs(tx, j.db));
    case Other(move) => assert [move][1..] == [];
  }

  // ----- Whole runs

  ghost predicate EnabledRun(maxRetries: nat, lease: Time, steps: seq<Step>, j: Joint)
    decreases |steps|
  {
    steps != [] ==>
      && Enabled(maxRetries, lease, steps[0], j)
      && EnabledRun(maxRetries, lease, steps[1..], Perform(lease, steps[0], j))
  }

  function PerformAll(lease: Time, steps: seq<Step>, j: Joint): Joint
    decreases |steps|
  {
    if steps == [] then j else PerformAll(lease, steps[1..], Perform(lease, steps[0], j))
  }

  function UntimedAll(steps: seq<Step>): seq<F.Step> {
    if steps == [] then [] else [Untimed(steps[0])] + UntimedAll(steps[1..])
  }

  lemma {:induction false} JointRun(maxRetries: nat, lease: Time, steps: seq<Step>, j: Joint)
    requires JointInv(maxRetries, j) && EnabledRun(maxRetries, lease, steps, j)
    ensures F.EnabledRun(maxRetries, UntimedAll(steps), UntimedJoint(j))
    ensures UntimedJoint(PerformAll(lease, steps, j)) == F.PerformAll(UntimedAll(steps), UntimedJoint(j))
    ensures JointInv(maxRetries, PerformAll(lease, steps, j))
    decreases |steps|
  {
    if steps != [] {
      JointKept(maxRetries, lease, steps[0], j);
      JointRun(maxRetries, lease, steps[1..], Perform(lease, steps[0], j));
      assert UntimedAll(steps)[1..] == UntimedAll(steps[1..]);
    }
  }

  // With renewals on time and claims committed within their lease, and nothing
  // assumed of which worker claims what: open transactions and executions are a
  // run of FencedClaims, with its fence and its results, no open transaction has
  // locked a task that is being worked on, and each is worked on once.
  lemma {:induction false} OnTimeTransactionsKeepFence(
    maxRetries: nat, lease: Time, steps: seq<Step>, start: Time, x: C.TxId, a: Key, b: Key)
    requires EnabledRun(maxRetries, lease, steps, Joint(C.OpenDb(start), L.Timed(Idle(start), map[])))
    ensures
      var j := Joint(C.OpenDb(start), L.Timed(Idle(start), map[]));
      var t := PerformAll(lease, steps, j);
      && F.EnabledRun(maxRetries, UntimedAll(steps), UntimedJoint(j))
      && UntimedJoint(t) == F.PerformAll(UntimedAll(steps), UntimedJoint(j))
      && t.db.rows == t.timed.sys.base.rows && Fenced(t.timed.sys)
      && (x in t.db.open && a in t.timed.sys.live ==> a.0 !in t.db.open[x].Locks())
      && (a in t.timed.sys.live && b in t.timed.sys.live && a.0 == b.0 && a.0 in t.db.rows ==> a == b)
  {
    var j := Joint(C.OpenDb(start), L.Timed(Idle(start), map[]));
    JointRun(maxRetries, lease, steps, j);
    var t := PerformAll(lease, steps, j);
    if x in t.db.open && a in t.timed.sys.live {
      NobodyWorksOnPicks(maxRetries, t, x, a);
    }
    if a in t.timed.sys.live && b in t.timed.sys.live {
      assert L.Holds(t.timed, a) && L.Holds(t.timed, b) && ExecInv(t.timed.sys, a);
    }
  }
}
