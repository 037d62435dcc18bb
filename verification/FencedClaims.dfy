// Claims and Executions together: executions run on a database whose claims
// are open transactions, with row locks, SKIP LOCKED and statements waiting.
// Every such run is a run of Executions on the committed table, so its fence
// and its results hold here.
module FencedClaims {
  import opened Tasks
  import opened Protocol
  import opened Executions
  import C = Claims

  datatype Joint = Joint(db: C.Db, sys: Sys)

  datatype Step =
    | Tx(tx: C.Step)  // a step of a reclaim-and-claim transaction
    | Other(act: Act) // anything else; its statement is a transaction of its own

  // A commit shows, as a reclaim and a claim; nothing before it does.
  function TxActs(tx: C.Step, db: C.Db): seq<Act> {
    if tx.Commit? && tx.tx in db.open then
      [World(C.ReclaimOp(db.open[tx.tx])), ClaimTasks(C.ClaimOp(db.open[tx.tx]))]
    else []
  }

  function Acts(step: Step, j: Joint): seq<Act> {
    match step
    case Tx(tx) => TxActs(tx, j.db)
    case Other(act) => [act]
  }

  function DbAfter(step: Step, j: Joint): C.Db {
    match step
    case Tx(tx) => C.Perform(tx, j.db)
    case Other(act) =>
      var op := Sent(act, j.sys);
      if op.Some? then C.Perform(C.Statement(op.value), j.db) else j.db
  }

  function Perform(step: Step, j: Joint): Joint {
    Joint(DbAfter(step, j), DoAll(Acts(step, j), j.sys))
  }

  // The worker of an open transaction works on none of the rows it picked.
  predicate PicksNotOwn(t: C.Tx, s: Sys) {
    forall key :: key in s.live && key.0 in t.Picked() ==> s.live[key].worker != t.worker
  }

  ghost predicate Enabled(maxRetries: nat, step: Step, j: Joint) {
    match step
    case Tx(tx) =>
      && !tx.Statement? && C.Enabled(maxRetries, tx, j.db)
      && (tx.Commit? && tx.tx in j.db.open ==> PicksNotOwn(j.db.open[tx.tx], j.sys))
    case Other(act) =>
      && !act.ClaimTasks? && Can(maxRetries, act, j.sys)
      && (Sent(act, j.sys).Some? ==> C.Enabled(maxRetries, C.Statement(Sent(act, j.sys).value), j.db))
  }

  ghost predicate JointInv(maxRetries: nat, j: Joint) {
    C.DbInv(j.db) && C.Shows(j.db, j.sys.base) && SysInv(maxRetries, j.sys)
  }

  lemma CommitLegal(maxRetries: nat, x: C.TxId, db: C.Db, s: State)
    requires C.DbInv(db) && C.Enabled(maxRetries, C.Commit(x), db) && C.Shows(db, s) && x in db.open
    ensures
      var reclaim, claim := C.ReclaimOp(db.open[x]), C.ClaimOp(db.open[x]);
      && Legal(maxRetries, reclaim, s) && Legal(maxRetries, claim, Apply(reclaim, s))
      && C.Shows(C.Perform(C.Commit(x), db), Apply(claim, Apply(reclaim, s)))
  {
    var reclaim, claim := C.ReclaimOp(db.open[x]), C.ClaimOp(db.open[x]);
    C.CommitIsAtomic(maxRetries, db, x, s);
    assert [reclaim, claim][1..] == [claim];
    assert [claim][1..] == [];
    assert Run([claim], Apply(reclaim, s)) == Apply(claim, Apply(reclaim, s));
  }

  lemma ReclaimThenClaim(maxRetries: nat, reclaim: Op, claim: Op, s: Sys)
    requires reclaim.Reclaim? && Legal(maxRetries, reclaim, s.base)
    requires claim.Claim? && Legal(maxRetries, claim, Apply(reclaim, s.base))
    requires forall key :: key in s.live && key.0 in claim.ids ==> s.live[key].worker != claim.worker
    ensures CanRun(maxRetries, [World(reclaim), ClaimTasks(claim)], s)
    ensures DoAll([World(reclaim), ClaimTasks(claim)], s).base == Apply(claim, Apply(reclaim, s.base))
  {
    var after := Do(World(reclaim), s);
    var first := One(maxRetries, World(reclaim), s, after);
    var second := One(maxRetries, ClaimTasks(claim), after, Do(ClaimTasks(claim), after));
    Then(maxRetries, first, second, s, after, Do(ClaimTasks(claim), after));
    assert first + second == [World(reclaim), ClaimTasks(claim)];
  }

  lemma CommitActs(maxRetries: nat, x: C.TxId, j: Joint)
    requires JointInv(maxRetries, j) && Enabled(maxRetries, Tx(C.Commit(x)), j) && x in j.db.open
    ensures CanRun(maxRetries, TxActs(C.Commit(x), j.db), j.sys)
    ensures C.Shows(C.Perform(C.Commit(x), j.db), DoAll(TxActs(C.Commit(x), j.db), j.sys).base)
  {
    var t := j.db.open[x];
    CommitLegal(maxRetries, x, j.db, j.sys.base);
    ReclaimThenClaim(maxRetries, C.ReclaimOp(t), C.ClaimOp(t), j.sys);
  }

  lemma OtherActs(maxRetries: nat, act: Act, j: Joint)
    requires JointInv(maxRetries, j) && Enabled(maxRetries, Other(act), j)
    ensures CanRun(maxRetries, [act], j.sys)
    ensures C.DbInv(DbAfter(Other(act), j)) && C.Shows(DbAfter(Other(act), j), DoAll([act], j.sys).base)
  {
    var acts := One(maxRetries, act, j.sys, Do(act, j.sys));
    var op := Sent(act, j.sys);
    if op.Some? {
      C.DbInvStep(maxRetries, C.Statement(op.value), j.db);
      C.StepRefines(maxRetries, C.Statement(op.value), j.db, j.sys.base);
      assert C.Atomic(C.Statement(op.value), j.db)[1..] == [];
      assert Run(C.Atomic(C.Statement(op.value), j.db), j.sys.base) == Apply(op.value, j.sys.base);
    }
  }

  lemma JointStep(maxRetries: nat, step: Step, j: Joint)
    requires JointInv(maxRetries, j) && Enabled(maxRetries, step, j)
    ensures CanRun(maxRetries, Acts(step, j), j.sys) && JointInv(maxRetries, Perform(step, j))
  {
    if step.Other? {
      OtherActs(maxRetries, step.act, j);
    } else {
      C.DbInvStep(maxRetries, step.tx, j.db);
      if step.tx.Commit? && step.tx.tx in j.db.open {
        CommitActs(maxRetries, step.tx.tx, j);
      }
    }
    SysInvRun(maxRetries, Acts(step, j), j.sys);
  }

  ghost predicate EnabledRun(maxRetries: nat, steps: seq<Step>, j: Joint)
    decreases |steps|
  {
    steps != [] ==> Enabled(maxRetries, steps[0], j) && EnabledRun(maxRetries, steps[1..], Perform(steps[0], j))
  }

  function PerformAll(steps: seq<Step>, j: Joint): Joint
    decreases |steps|
  {
    if steps == [] then j else PerformAll(steps[1..], Perform(steps[0], j))
  }

  function AllActs(steps: seq<Step>, j: Joint): seq<Act>
    decreases |steps|
  {
    if steps == [] then [] else Acts(steps[0], j) + AllActs(steps[1..], Perform(steps[0], j))
  }

  lemma {:induction false} JointRun(maxRetries: nat, steps: seq<Step>, j: Joint)
    requires JointInv(maxRetries, j) && EnabledRun(maxRetries, steps, j)
    ensures JointInv(maxRetries, PerformAll(steps, j))
    ensures Leads(maxRetries, AllActs(steps, j), j.sys, PerformAll(steps, j).sys)
    decreases |steps|
  {
    if steps != [] {
      var next := Perform(steps[0], j);
      JointStep(maxRetries, steps[0], j);
      JointRun(maxRetries, steps[1..], next);
      Then(maxRetries, Acts(steps[0], j), AllActs(steps[1..], next), j.sys, next.sys, PerformAll(steps, j).sys);
    }
  }

  // However transactions and executions interleave: they are a run of
  // Executions on the committed table, the worker's name on a row stands for
  // the latest claim, and a done row holds one execution's results.
  lemma {:induction false} TransactionsKeepFence(maxRetries: nat, steps: seq<Step>, start: Time, id: TaskId)
    requires EnabledRun(maxRetries, steps, Joint(C.OpenDb(start), Idle(start)))
    ensures
      var j := Joint(C.OpenDb(start), Idle(start));
      var t := PerformAll(steps, j);
      && Leads(maxRetries, AllActs(steps, j), Idle(start), t.sys)
      && t.db.rows == t.sys.base.rows
      && Fenced(t.sys)
      && (id in t.db.rows && t.db.rows[id].status == Done ==> id in t.sys.base.log && ResultInv(t.sys, id))
  {
    JointRun(maxRetries, steps, Joint(C.OpenDb(start), Idle(start)));
  }
}
