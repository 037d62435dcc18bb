// `process`, one execution from its first read to its end, as it drives the
// DAO. It refines Executions: whatever the rest of the system does between its
// statements, what it does is a run of that state machine, and how it returns
// tells what became of its task.
module Executor {
  import opened Options
  import opened Tasks
  import opened TaskStore
  import opened Executions
  import opened Protocol
  import opened QueueLaws

  // How awaited work ends.
  datatype Work<T> = Answered(value: T) | Raises(error: string) | Cancelled

  // How a transaction goes that may be cut short before its statement runs.
  datatype Tx = Runs | Breaks(error: string) | CutShort

  datatype Outcome =
    | Skipped                    // not ours any more: nothing sent
    | Finished                   // done recorded
    | LeaseLost                  // aborted: another worker's business now
    | Aborted                    // cancelled by shutdown
    | FailureHandled(recorded: bool)
    | Unrecorded                 // an exception out of the failure handling itself

  // How each part goes, if the execution gets to it: what the recognizer and the
  // summarizer do, and which transaction raises or is cut off, before its
  // statement or as its session closes.
  datatype Script = Script(
    check: Tx,
    enter: Tx,
    entered: Tx,
    asr: Work<string>,
    mark: Tx,
    marked: Tx,
    llm: string -> Work<Summary>,  // given the transcript it is called with
    done: Tx,
    closed: Tx,
    exit: bool,                    // cut off while the renewal loop is being stopped
    rollback: Tx,                  // of a refused mark
    fail: Tx)

  function Going<T>(work: Work<T>): Tx {
    match work
    case Answered(_) => Runs
    case Raises(error) => Breaks(error)
    case Cancelled => CutShort
  }

  // What first goes wrong, if the task stays this execution's.
  function FirstFault(script: Script): Tx {
    if script.check != Runs then script.check
    else if script.enter != Runs then script.enter
    else if script.exit then CutShort
    else if script.entered != Runs then script.entered
    else if !script.asr.Answered? then Going(script.asr)
    else if script.mark != Runs then script.mark
    else if script.marked != Runs then script.marked
    else if !script.llm(script.asr.value).Answered? then Going(script.llm(script.asr.value))
    else if script.done != Runs then script.done
    else script.closed
  }

  // ----- The rest of the system

  // Anyone else's act, or a turn of this execution's own renewal loop.
  predicate Foreign(act: Act, key: Key, worker: WorkerId) {
    match act
    case World(_) => true
    case ClaimTasks(_) => true
    case RenewAgain(_, _) => true
    case Crash(w) => w != worker
    case _ => act.key != key
  }

  predicate AllForeign(acts: seq<Act>, key: Key, worker: WorkerId) {
    forall i :: 0 <= i < |acts| ==> Foreign(acts[i], key, worker)
  }

  // `lease_lost` is set only when it is.
  ghost predicate LossKnown(s: Sys, key: Key) {
    key in s.live && s.live[key].leaseLost ==> !Current(s, key)
  }

  // What does not change meanwhile for execution `key`.
  ghost predicate Meanwhile(s: Sys, t: Sys, key: Key)
    requires key in s.live
  {
    && key in t.live
    && t.live[key].worker == s.live[key].worker && t.live[key].phase == s.live[key].phase
    && s.answers <= t.answers
    && (!Current(s, key) ==> !Current(t, key))
    && LossKnown(t, key)
  }

  lemma ForeignKeeps(maxRetries: nat, act: Act, s: Sys, key: Key)
    requires SysInv(maxRetries, s) && key in s.live && Foreign(act, key, s.live[key].worker)
    ensures key in Do(act, s).live
    ensures Do(act, s).live[key].worker == s.live[key].worker && Do(act, s).live[key].phase == s.live[key].phase
    ensures (act.RenewAgain? && act.key == key) || Do(act, s).live[key] == s.live[key]
    ensures s.answers <= Do(act, s).answers
  {
    assert ExecInv(s, key);
  }

  lemma LostStaysLost(maxRetries: nat, act: Act, s: Sys, key: Key)
    requires SysInv(maxRetries, s) && Can(maxRetries, act, s) && key in s.live && !Current(s, key)
    ensures !Current(Do(act, s), key)
  {
    assert ExecInv(s, key);
    if Sent(act, s).Some? {
      StaleStep(maxRetries, Sent(act, s).value, s.base, key);
    }
  }

  lemma ForeignStep(maxRetries: nat, act: Act, s: Sys, key: Key)
    requires SysInv(maxRetries, s) && Can(maxRetries, act, s) && NoSelfReclaim(act, s)
    requires key in s.live && LossKnown(s, key) && Foreign(act, key, s.live[key].worker)
    ensures Meanwhile(s, Do(act, s), key)
  {
    ForeignKeeps(maxRetries, act, s, key);
    if !Current(s, key) {
      LostStaysLost(maxRetries, act, s, key);
    }
    if act.RenewAgain? && act.key == key {
      RenewalReportsLoss(maxRetries, s, act, key);
      HolderIsCurrent(maxRetries, s, key);
    }
  }

  lemma {:induction false} ForeignRun(maxRetries: nat, acts: seq<Act>, s: Sys, key: Key)
    requires SysInv(maxRetries, s) && CanRun(maxRetries, acts, s)
    requires key in s.live && LossKnown(s, key) && AllForeign(acts, key, s.live[key].worker)
    ensures Meanwhile(s, DoAll(acts, s), key)
    decreases |acts|
  {
    if acts != [] {
      assert Foreign(acts[0], key, s.live[key].worker);
      ForeignStep(maxRetries, acts[0], s, key);
      SysInvStep(maxRetries, acts[0], s);
      ForeignRun(maxRetries, acts[1..], Do(acts[0], s), key);
    }
  }

  // A refused statement leaves the task lost, an accepted failure frees it.
  lemma RefusalIsLoss(maxRetries: nat, act: Act, s: Sys, key: Key)
    requires SysInv(maxRetries, s) && Can(maxRetries, act, s) && key in s.live
    requires IsMark(act, maxRetries, key)
    ensures !Current(Do(act, s), key) <==> !(act.SaveTranscript? && Hits(Sent(act, s), s.base, key.0))
  {
    FenceIsEpoch(maxRetries, s, act, key);
    HolderKept(maxRetries, Sent(act, s).value, s.base, key.0);
  }

  lemma FailedCheckIsLoss(maxRetries: nat, s: Sys, key: Key)
    requires SysInv(maxRetries, s) && key in s.live && s.live[key].phase == Starting
    requires !CheckPasses(s.base.rows, s.live[key], key.0)
    ensures !Current(s, key)
  {
    assert ExecInv(s, key);
  }

  // A done row stays as it is, until it is deleted.
  ghost predicate DoneOrGone(s: Sys, id: TaskId, r: Row) {
    r.status == Done && id in s.base.log && (id in s.base.rows ==> s.base.rows[id] == r)
  }

  lemma DoneStep(maxRetries: nat, act: Act, s: Sys, id: TaskId, r: Row)
    requires SysInv(maxRetries, s) && Can(maxRetries, act, s) && DoneOrGone(s, id, r)
    ensures DoneOrGone(Do(act, s), id, r)
  {
    if Sent(act, s).Some? && id in s.base.rows {
      StatementsFollowEdges(maxRetries, Sent(act, s).value, s.base, id);
    }
  }

  lemma {:induction false} DoneRun(maxRetries: nat, acts: seq<Act>, s: Sys, id: TaskId, r: Row)
    requires SysInv(maxRetries, s) && CanRun(maxRetries, acts, s) && DoneOrGone(s, id, r)
    ensures DoneOrGone(DoAll(acts, s), id, r)
    decreases |acts|
  {
    if acts != [] {
      DoneStep(maxRetries, acts[0], s, id, r);
      SysInvStep(maxRetries, acts[0], s);
      DoneRun(maxRetries, acts[1..], Do(acts[0], s), id, r);
    }
  }

  // An execution that has ended does not come back.
  ghost predicate Ended(s: Sys, key: Key) {
    key !in s.live && key.0 in s.base.log && key.1 <= s.base.log[key.0].claims
  }

  lemma EndedStep(maxRetries: nat, act: Act, s: Sys, key: Key)
    requires Can(maxRetries, act, s) && Ended(s, key)
    ensures Ended(Do(act, s), key) && s.answers <= Do(act, s).answers
  {
  }

  lemma {:induction false} EndedRun(maxRetries: nat, acts: seq<Act>, s: Sys, key: Key)
    requires CanRun(maxRetries, acts, s) && Ended(s, key)
    ensures Ended(DoAll(acts, s), key) && s.answers <= DoAll(acts, s).answers
    decreases |acts|
  {
    if acts != [] {
      EndedStep(maxRetries, acts[0], s, key);
      EndedRun(maxRetries, acts[1..], Do(acts[0], s), key);
    }
  }

  // ----- What an execution sends

  // A statement, and whether it matched.
  datatype Mark = Mark(op: Op, accepted: bool)

  function Noted(act: Act, s: Sys): seq<Mark> {
    if (act.Enter? || act.SaveTranscript? || act.SaveSummary? || act.SaveFailure?) && Sent(act, s).Some? then
      [Mark(Sent(act, s).value, Hits(Sent(act, s), s.base, act.key.0))]
    else []
  }

  // In order, before any failure: a renewal; if that was accepted, the
  // recognizer's answer; if that was, the summarizer's answer to it.
  ghost predicate InOrder(marks: seq<Mark>, key: Key, worker: WorkerId, lease: Time, script: Script) {
    && |marks| <= 3
    && (|marks| >= 1 ==> marks[0].op == Renew(key.0, worker, lease))
    && (|marks| >= 2 ==>
          && marks[0].accepted && script.asr.Answered?
          && marks[1].op == Op.MarkSummarizing(key.0, worker, script.asr.value))
    && (|marks| == 3 ==>
          && marks[1].accepted && script.llm(script.asr.value).Answered?
          && marks[2].op == Op.MarkDone(key.0, worker, script.llm(script.asr.value).value))
  }

  // The last statement was refused.
  predicate Turned(marks: seq<Mark>) {
    marks != [] && !marks[|marks| - 1].accepted
  }

  // Those of an execution that may yet fail.
  ghost predicate SoFar(marks: seq<Mark>, key: Key, worker: WorkerId, lease: Time, script: Script) {
    InOrder(marks, key, worker, lease, script) && (|marks| == 3 ==> Turned(marks))
  }

  // A failure goes last, and is not accepted after a refusal or after the summary.
  ghost predicate Story(
    outcome: Outcome, marks: seq<Mark>, key: Key, worker: WorkerId, lease: Time, maxRetries: nat, script: Script)
  {
    match outcome
    case Skipped => marks == []
    case Finished => |marks| == 3 && InOrder(marks, key, worker, lease, script) && !Turned(marks)
    case LeaseLost => SoFar(marks, key, worker, lease, script)
    case Aborted => InOrder(marks, key, worker, lease, script)
    case Unrecorded => InOrder(marks, key, worker, lease, script)
    case FailureHandled(recorded) =>
      && |marks| >= 1
      && var before, last := marks[..|marks| - 1], marks[|marks| - 1];
         && InOrder(before, key, worker, lease, script)
         && (recorded ==> |before| <= 2 && !Turned(before))
         && last.op.MarkFailure? && last.op.id == key.0 && last.op.worker == worker
         && last.op.maxRetries == maxRetries && last.accepted == recorded
  }

  // A fault ends the execution, or is recorded as its failure; `calm` is how it
  // ends without one.
  ghost predicate Fits(outcome: Outcome, marks: seq<Mark>, fault: Tx, fail: Tx, calm: Outcome) {
    match fault
    case Runs => outcome == calm
    case CutShort => outcome == Aborted
    case Breaks(error) =>
      match fail
      case Runs =>
        outcome.FailureHandled? && marks != [] && marks[|marks| - 1].op.MarkFailure? && marks[|marks| - 1].op.error == error
      case Breaks(_) => outcome == Unrecorded
      case CutShort => outcome == Aborted
  }

  // A mark was refused, so that its transaction was rolled back.
  predicate Refusal(marks: seq<Mark>) {
    || (|marks| >= 2 && marks[1].op.MarkSummarizing? && !marks[1].accepted)
    || (|marks| >= 3 && marks[2].op.MarkDone? && !marks[2].accepted)
  }

  // Nothing ends an execution but the loss of its task and what goes wrong.
  ghost predicate Explained(outcome: Outcome, marks: seq<Mark>, script: Script) {
    || outcome == Skipped
    || outcome == LeaseLost
    || Fits(outcome, marks, FirstFault(script), script.fail, Finished)
    || (Refusal(marks) && Fits(outcome, marks, script.rollback, script.fail, LeaseLost))
  }

  lemma FailureIsLast(before: seq<Mark>, last: Mark, key: Key, worker: WorkerId, lease: Time, maxRetries: nat, script: Script)
    requires SoFar(before, key, worker, lease, script) && (last.accepted ==> !Turned(before))
    requires last.op.MarkFailure? && last.op == Op.MarkFailure(key.0, worker, last.op.error, maxRetries)
    requires script.fail == Runs
    requires Breaks(last.op.error) == FirstFault(script) || (Refusal(before) && Breaks(last.op.error) == script.rollback)
    ensures Story(FailureHandled(last.accepted), before + [last], key, worker, lease, maxRetries, script)
    ensures Explained(FailureHandled(last.accepted), before + [last], script)
  {
    var marks := before + [last];
    assert marks[..|marks| - 1] == before;
    if Refusal(before) {
      assert Refusal(marks);
    }
  }

  // ----- What its return says of the task

  ghost predicate DoneBy(s: Sys, key: Key) {
    && key.0 in s.base.rows && s.base.rows[key.0].status == Done
    && s.base.rows[key.0].transcript.Some? && s.base.rows[key.0].summary.Some?
    && Answer(key, s.base.rows[key.0].transcript.value, s.base.rows[key.0].summary.value) in s.answers
    && key.0 in s.base.log && s.base.log[key.0].claims == key.1
  }

  ghost predicate FailedOnce(s: Sys, key: Key, maxRetries: nat, error: string) {
    && key.0 in s.base.rows && s.base.rows[key.0].lockedBy == None
    && s.base.rows[key.0].status == (if s.base.rows[key.0].retryCount <= maxRetries then Pending else Failed)
    && 1 <= s.base.rows[key.0].retryCount
    && s.base.rows[key.0].errorMsg == Some(Clip(error))
  }

  // The row holds the recognizer's answer and the summarizer's answer to it.
  predicate Stored(s: Sys, key: Key, script: Script) {
    && key.0 in s.base.rows && script.asr.Answered? && script.llm(script.asr.value).Answered?
    && s.base.rows[key.0].transcript == Some(script.asr.value)
    && s.base.rows[key.0].summary == Some(script.llm(script.asr.value).value)
  }

  lemma FailureSettles(maxRetries: nat, s: Sys, key: Key)
    requires SysInv(maxRetries, s) && Can(maxRetries, SaveFailure(key, maxRetries), s) && key in s.live
    ensures
      var act := SaveFailure(key, maxRetries);
      && key !in Do(act, s).live && !Current(Do(act, s), key)
      && (Hits(Sent(act, s), s.base, key.0) && s.live[key].phase.Failing? ==>
            FailedOnce(Do(act, s), key, maxRetries, s.live[key].phase.error))
  {
    RefusalIsLoss(maxRetries, SaveFailure(key, maxRetries), s, key);
  }

  lemma SummarySettles(maxRetries: nat, s: Sys, key: Key)
    requires SysInv(maxRetries, s) && Can(maxRetries, SaveSummary(key), s) && key in s.live
    ensures
      var act := SaveSummary(key);
      && !Current(Do(act, s), key)
      && if Hits(Sent(act, s), s.base, key.0) then
           && key !in Do(act, s).live && DoneBy(Do(act, s), key)
           && Do(act, s).base.rows[key.0].transcript == Some(s.live[key].phase.transcript)
           && Do(act, s).base.rows[key.0].summary == Some(s.live[key].phase.summary)
         else key in Do(act, s).live && Do(act, s).live[key] == s.live[key].(phase := Refused)
  {
    var act := SaveSummary(key);
    RefusalIsLoss(maxRetries, act, s, key);
    assert ExecInv(s, key);
    HolderKept(maxRetries, Sent(act, s).value, s.base, key.0);
    FenceIsEpoch(maxRetries, s, act, key);
  }

  lemma MissedFailure(maxRetries: nat, s: Sys, id: TaskId, r: Row, worker: WorkerId, error: string)
    requires SysInv(maxRetries, s) && DoneOrGone(s, id, r)
    ensures id in s.base.rows ==> s.base.rows[id].lockedBy == None
    ensures After(Op.MarkFailure(id, worker, error, maxRetries), s.base.now, s.base.rows) == s.base.rows
  {
    var op := Op.MarkFailure(id, worker, error, maxRetries);
    assert id in s.base.rows ==> RowInv(maxRetries, s.base.now, s.base.rows[id], s.base.log[id]);
    forall t | t in s.base.rows ensures !Where(op, t, s.base.rows[t]) {
    }
  }

  class TaskExecutor {
    const dao: TaskDao
    const workerId: WorkerId
    const lease: Time
    const maxRetries: nat
    var world: Sys             // the whole system; its table is the DAO's
    ghost var origin: Sys
    ghost var run: seq<Act>    // what happened since
    ghost var marks: seq<Mark> // marks sent by this execution

    constructor (dao: TaskDao, workerId: WorkerId, lease: Time, maxRetries: nat, world: Sys)
      requires dao.rows == world.base.rows && SysInv(maxRetries, world) && 0.0 <= lease
      ensures this.dao == dao && this.workerId == workerId && this.lease == lease && this.maxRetries == maxRetries
      ensures this.world == origin == world && run == [] && marks == [] && Valid()
    {
      this.dao, this.workerId, this.lease, this.maxRetries := dao, workerId, lease, maxRetries;
      this.world, origin, run, marks := world, world, [], [];
    }

    ghost predicate Refines()
      reads this
    {
      SysInv(maxRetries, world) && Leads(maxRetries, run, origin, world) && 0.0 <= lease
    }

    ghost predicate Valid()
      reads this, dao
    {
      Refines() && dao.rows == world.base.rows
    }

    ghost predicate At(key: Key, phase: Phase)
      reads this, dao
    {
      && Valid() && key in world.live && world.live[key].worker == workerId
      && world.live[key].phase == phase && LossKnown(world, key)
    }

    ghost predicate Told(outcome: Outcome, key: Key, script: Script)
      reads this, dao
    {
      && Valid() && key !in world.live
      && Story(outcome, marks, key, workerId, lease, maxRetries, script)
      && Explained(outcome, marks, script)
      && (outcome == Finished ==> DoneBy(world, key) && Stored(world, key, script))
      && (outcome == FailureHandled(true) ==> FailedOnce(world, key, maxRetries, marks[|marks| - 1].op.error))
      && (outcome != Aborted && outcome != Unrecorded ==> !Current(world, key))
    }

    // May yet fail; after a refusal, to no effect.
    ghost predicate Open(key: Key, script: Script)
      reads this
    {
      SoFar(marks, key, workerId, lease, script) && (Turned(marks) ==> !Current(world, key))
    }

    // The fault explains how the execution ends.
    ghost predicate Accounts(fault: Tx, script: Script)
      reads this
    {
      fault == FirstFault(script) || (Refusal(marks) && fault == script.rollback)
    }

    // Time passes, and others act.
    method Others(key: Key)
      requires key in world.live && At(key, world.live[key].phase)
      modifies this`world, this`run, dao
      ensures origin == old(origin) && At(key, old(world.live[key].phase)) && Meanwhile(old(world), world, key)
    {
      assert CanRun(maxRetries, [], world);
      var acts: seq<Act> :| CanRun(maxRetries, acts, world) && AllForeign(acts, key, workerId);
      ForeignRun(maxRetries, acts, world, key);
      SysInvRun(maxRetries, acts, world);
      Then(maxRetries, run, acts, origin, world, DoAll(acts, world));
      world := DoAll(acts, world);
      run := run + acts;
      dao.rows := world.base.rows;
    }

    // This execution's own move, once its statement has changed the table.
    method Move(act: Act)
      requires Refines() && Can(maxRetries, act, world) && !act.ClaimTasks?
      requires dao.rows == Do(act, world).base.rows
      modifies this`world, this`run, this`marks
      ensures Valid() && world == Do(act, old(world)) && run == old(run) + [act]
      ensures marks == old(marks) + Noted(act, old(world))
    {
      SysInvStep(maxRetries, act, world);
      ghost var acts := One(maxRetries, act, world, Do(act, world));
      Then(maxRetries, run, acts, origin, world, Do(act, world));
      marks := marks + Noted(act, world);
      world := Do(act, world);
      run := run + [act];
    }

    // Work under the lease, while the renewal loop keeps extending it; nothing
    // comes of it once the lease is found lost.
    method AwaitWhileLeased<T>(key: Key, work: Work<T>) returns (end: Option<Work<T>>)
      requires key in world.live && At(key, world.live[key].phase)
      modifies this`world, this`run, dao
      ensures At(key, old(world.live[key].phase)) && Meanwhile(old(world), world, key)
      ensures old(world.live[key].leaseLost) ==> end == None
      ensures end == None ==> !Current(world, key)
      ensures end.Some? ==> end.value == work && (world.live[key].leaseLost ==> work.Cancelled?)
      ensures !old(world.live[key].leaseLost) && work.Cancelled? ==> end == Some(work)
    {
      if world.live[key].leaseLost {
        return None;
      }
      Others(key);
      end := if world.live[key].leaseLost && !work.Cancelled? then None else Some(work);
    }

    method Quit(key: Key)
      requires key in world.live && At(key, world.live[key].phase)
      modifies this`world, this`run, this`marks
      ensures Valid() && key !in world.live && world.base == old(world.base) && marks == old(marks)
    {
      Move(Leave(key));
      assert marks == old(marks);
    }

    // The lease was found lost.
    method Lose(key: Key, script: Script) returns (outcome: Outcome)
      requires key in world.live && At(key, world.live[key].phase) && !Current(world, key) && Open(key, script)
      requires script.check == script.enter == Runs
      modifies this`world, this`run, this`marks, dao
      ensures Told(outcome, key, script)
    {
      Quit(key);
      outcome := if script.exit then Aborted else LeaseLost;
    }

    method HandleTaskFailure(key: Key, error: string, script: Script) returns (outcome: Outcome)
      requires key in world.live && At(key, world.live[key].phase) && !world.live[key].phase.Failing?
      requires Open(key, script) && Accounts(Breaks(error), script)
      modifies this`world, this`run, this`marks, dao
      ensures Told(outcome, key, script)
      ensures match script.fail
        case Runs => outcome.FailureHandled?
        case Breaks(_) => outcome == Unrecorded
        case CutShort => outcome == Aborted
    {
      StartFailing(key, error);
      Others(key);
      if script.fail != Runs {
        Quit(key);
        return if script.fail.Breaks? then Unrecorded else Aborted;
      }
      outcome := MarkFailure(key, error, script);
    }

    method StartFailing(key: Key, error: string)
      requires key in world.live && At(key, world.live[key].phase) && !world.live[key].phase.Failing?
      modifies this`world, this`run, this`marks
      ensures At(key, Failing(error)) && marks == old(marks)
      ensures Current(world, key) <==> Current(old(world), key)
    {
      Move(Raise(key, error));
      assert marks == old(marks);
    }

    method MarkFailure(key: Key, error: string, script: Script) returns (outcome: Outcome)
      requires At(key, Failing(error)) && Open(key, script) && Accounts(Breaks(error), script) && script.fail == Runs
      modifies this`world, this`run, this`marks, dao
      ensures outcome.FailureHandled? && Told(outcome, key, script)
    {
      var ok := SendFailure(key, error);
      FailureIsLast(old(marks), Mark(Op.MarkFailure(key.0, workerId, error, maxRetries), ok), key, workerId, lease, maxRetries, script);
      outcome := FailureHandled(ok);
    }

    method SendFailure(key: Key, error: string) returns (ok: bool)
      requires At(key, Failing(error))
      modifies this`world, this`run, this`marks, dao
      ensures marks == old(marks) + [Mark(Op.MarkFailure(key.0, workerId, error, maxRetries), ok)]
      ensures Valid() && key !in world.live && !Current(world, key)
      ensures ok ==> Current(old(world), key) && FailedOnce(world, key, maxRetries, error)
    {
      FailureSettles(maxRetries, world, key);
      FenceIsEpoch(maxRetries, world, SaveFailure(key, maxRetries), key);
      var row := dao.MarkFailure(key.0, workerId, error, maxRetries, world.base.now);
      Move(SaveFailure(key, maxRetries));
      ok := row.Some?;
    }

    // A transaction did not run, or an awaited call did not answer.
    method Fail(key: Key, fault: Tx, script: Script) returns (outcome: Outcome)
      requires fault != Runs
      requires key in world.live && At(key, world.live[key].phase) && !world.live[key].phase.Failing?
      requires Open(key, script) && Accounts(fault, script)
      modifies this`world, this`run, this`marks, dao
      ensures Told(outcome, key, script)
    {
      if fault.CutShort? {
        Quit(key);
        outcome := Aborted;
      } else {
        outcome := HandleTaskFailure(key, fault.error, script);
      }
    }

    // The same inside the lease's context, which is left first.
    method FailInside(key: Key, fault: Tx, script: Script) returns (outcome: Outcome)
      requires fault != Runs && script.check == script.enter == Runs
      requires key in world.live && At(key, world.live[key].phase) && !world.live[key].phase.Failing?
      requires Open(key, script) && (!script.exit ==> Accounts(fault, script))
      modifies this`world, this`run, this`marks, dao
      ensures Told(outcome, key, script)
    {
      outcome := Fail(key, if script.exit then CutShort else fault, script);
    }

    // However the rest of the system behaves, the execution's acts are those of
    // Executions. When it returns, the task is no longer its own, unless it was
    // cut off or its failure could not be recorded. Unless the task was lost, it
    // ends as the first fault has it, and without a fault it finishes: then the
    // done row holds the recognizer's answer and the summarizer's answer to it.
    method Process(key: Key, script: Script) returns (outcome: Outcome)
      requires At(key, Starting) && marks == [] && run == []
      requires forall t :: script.llm(t) != Answered([])
      modifies this`world, this`run, this`marks, dao
      ensures Leads(maxRetries, run, old(world), world) && Told(outcome, key, script)
    {
      Others(key);
      if script.check != Runs {
        outcome := Fail(key, script.check, script);
      } else if key.0 !in dao.rows || dao.rows[key.0].status != Transcribing || dao.rows[key.0].lockedBy != Some(workerId) {
        outcome := Skip(key, script);
      } else {
        PassCheck(key);
        outcome := LeaseKeepalive(key, script);
      }
    }

    method Skip(key: Key, script: Script) returns (outcome: Outcome)
      requires At(key, Starting) && marks == [] && !CheckPasses(world.base.rows, world.live[key], key.0)
      modifies this`world, this`run, this`marks
      ensures outcome == Skipped && Told(outcome, key, script)
    {
      FailedCheckIsLoss(maxRetries, world, key);
      Move(Check(key));
      assert marks == [];
      outcome := Skipped;
    }

    method PassCheck(key: Key)
      requires At(key, Starting) && marks == [] && CheckPasses(world.base.rows, world.live[key], key.0)
      modifies this`world, this`run, this`marks
      ensures At(key, Entering) && marks == []
    {
      Move(Check(key));
      assert marks == [];
    }

    method LeaseKeepalive(key: Key, script: Script) returns (outcome: Outcome)
      requires At(key, Entering) && marks == [] && script.check == Runs
      requires forall t :: script.llm(t) != Answered([])
      modifies this`world, this`run, this`marks, dao
      ensures Told(outcome, key, script)
    {
      Others(key);
      if script.enter != Runs {
        outcome := Fail(key, script.enter, script);
        return;
      }
      var ok := RenewFirst(key);
      if script.entered != Runs {
        outcome := FailInside(key, script.entered, script);
      } else {
        outcome := DoAsr(key, script, ok);
      }
    }

    method RenewFirst(key: Key) returns (ok: bool)
      requires At(key, Entering) && marks == []
      modifies this`world, this`run, this`marks, dao
      ensures At(key, InAsr) && marks == [Mark(Renew(key.0, workerId, lease), ok)]
      ensures world.live[key].leaseLost == !ok && (!ok ==> !Current(world, key))
    {
      RenewalReportsLoss(maxRetries, world, Executions.Enter(key, lease), key);
      ok := dao.RenewLease(key.0, workerId, lease, world.base.now);
      Move(Executions.Enter(key, lease));
    }

    method DoAsr(key: Key, script: Script, renewed: bool) returns (outcome: Outcome)
      requires At(key, InAsr) && marks == [Mark(Renew(key.0, workerId, lease), renewed)]
      requires world.live[key].leaseLost == !renewed
      requires script.check == script.enter == script.entered == Runs
      requires forall t :: script.llm(t) != Answered([])
      modifies this`world, this`run, this`marks, dao
      ensures Told(outcome, key, script)
    {
      var end := AwaitWhileLeased(key, script.asr);
      if end == None {
        outcome := Lose(key, script);
      } else if !end.value.Answered? {
        outcome := FailInside(key, Going(end.value), script);
      } else {
        Transcribed(key, end.value.value);
        outcome := MarkSummarizing(key, end.value.value, script);
      }
    }

    method Transcribed(key: Key, transcript: string)
      requires At(key, InAsr) && !world.live[key].leaseLost
      modifies this`world, this`run, this`marks
      ensures At(key, HasTranscript(transcript)) && marks == old(marks)
    {
      Move(Transcribe(key, transcript));
      assert marks == old(marks);
    }

    // The execution holds the lease and has sent nothing else.
    ghost predicate Renewed(key: Key)
      reads this
    {
      marks == [Mark(Renew(key.0, workerId, lease), true)]
    }

    method MarkSummarizing(key: Key, transcript: string, script: Script) returns (outcome: Outcome)
      requires At(key, HasTranscript(transcript)) && Renewed(key)
      requires script.check == script.enter == script.entered == Runs && script.asr == Answered(transcript)
      requires forall t :: script.llm(t) != Answered([])
      modifies this`world, this`run, this`marks, dao
      ensures Told(outcome, key, script)
    {
      Others(key);
      if script.mark != Runs {
        outcome := FailInside(key, script.mark, script);
        return;
      }
      var ok := SendTranscript(key, transcript);
      if !ok {
        outcome := RollBack(key, script);
      } else if script.marked != Runs {
        outcome := FailInside(key, script.marked, script);
      } else {
        outcome := Summarize(key, transcript, script);
      }
    }

    method SendTranscript(key: Key, transcript: string) returns (ok: bool)
      requires At(key, HasTranscript(transcript)) && Renewed(key)
      modifies this`world, this`run, this`marks, dao
      ensures marks == old(marks) + [Mark(Op.MarkSummarizing(key.0, workerId, transcript), ok)]
      ensures if ok then At(key, InLlm(transcript)) else At(key, Refused) && !Current(world, key)
    {
      RefusalIsLoss(maxRetries, SaveTranscript(key), world, key);
      ok := dao.MarkSummarizing(key.0, workerId, transcript, world.base.now);
      Move(SaveTranscript(key));
    }

    // A refused mark raises inside its transaction, which is rolled back and
    // closed; an error there takes the place of the lost lease.
    method RollBack(key: Key, script: Script) returns (outcome: Outcome)
      requires At(key, Refused) && Open(key, script) && Refusal(marks) && !Current(world, key)
      requires script.check == script.enter == Runs
      modifies this`world, this`run, this`marks, dao
      ensures Told(outcome, key, script)
    {
      Others(key);
      if script.rollback == Runs {
        outcome := Lose(key, script);
      } else {
        outcome := FailInside(key, script.rollback, script);
      }
    }

    // The recognizer's answer is on the row.
    ghost predicate Transcript(key: Key, transcript: string)
      reads this
    {
      marks == [Mark(Renew(key.0, workerId, lease), true), Mark(Op.MarkSummarizing(key.0, workerId, transcript), true)]
    }

    method Summarize(key: Key, transcript: string, script: Script) returns (outcome: Outcome)
      requires At(key, InLlm(transcript)) && Transcript(key, transcript)
      requires script.check == script.enter == script.entered == script.mark == script.marked == Runs
      requires script.asr == Answered(transcript) && forall t :: script.llm(t) != Answered([])
      modifies this`world, this`run, this`marks, dao
      ensures Told(outcome, key, script)
    {
      var end := AwaitWhileLeased(key, script.llm(transcript));
      if end == None {
        outcome := Lose(key, script);
      } else if !end.value.Answered? {
        outcome := FailInside(key, Going(end.value), script);
      } else {
        Summarized(key, transcript, end.value.value);
        outcome := MarkDone(key, transcript, end.value.value, script);
      }
    }

    method Summarized(key: Key, transcript: string, summary: Summary)
      requires At(key, InLlm(transcript)) && !world.live[key].leaseLost && summary != []
      modifies this`world, this`run, this`marks
      ensures At(key, HasSummary(transcript, summary)) && marks == old(marks)
    {
      Move(Act.Summarize(key, summary));
      assert marks == old(marks);
    }

    method MarkDone(key: Key, transcript: string, summary: Summary, script: Script) returns (outcome: Outcome)
      requires At(key, HasSummary(transcript, summary)) && Transcript(key, transcript)
      requires script.check == script.enter == script.entered == script.mark == script.marked == Runs
      requires script.asr == Answered(transcript) && script.llm(transcript) == Answered(summary)
      modifies this`world, this`run, this`marks, dao
      ensures Told(outcome, key, script)
    {
      Others(key);
      if script.done != Runs {
        outcome := FailInside(key, script.done, script);
        return;
      }
      var ok := SendDone(key, transcript, summary);
      if !ok {
        outcome := RollBack(key, script);
      } else if script.closed.CutShort? || script.exit {
        outcome := Aborted;
      } else if script.closed.Breaks? {
        outcome := FailAfterDone(key, script);
      } else {
        outcome := Finished;
      }
    }

    method SendDone(key: Key, transcript: string, summary: Summary) returns (ok: bool)
      requires At(key, HasSummary(transcript, summary)) && Transcript(key, transcript)
      modifies this`world, this`run, this`marks, dao
      ensures marks == old(marks) + [Mark(Op.MarkDone(key.0, workerId, summary), ok)]
      ensures Valid() && !Current(world, key)
      ensures if ok then
          && key !in world.live && DoneBy(world, key)
          && world.base.rows[key.0].transcript == Some(transcript) && world.base.rows[key.0].summary == Some(summary)
        else At(key, Refused)
    {
      SummarySettles(maxRetries, world, key);
      ok := dao.MarkDone(key.0, workerId, summary, world.base.now);
      Move(SaveSummary(key));
    }

    // An error while the session closes after the commit: the failure then sent
    // finds the row done, or gone, and changes nothing.
    method FailAfterDone(key: Key, script: Script) returns (outcome: Outcome)
      requires Valid() && key !in world.live && DoneBy(world, key) && !Current(world, key)
      requires |marks| == 3 && InOrder(marks, key, workerId, lease, script) && marks[2].accepted
      requires script.closed.Breaks? && FirstFault(script) == script.closed
      modifies this`world, this`run, this`marks, dao
      ensures Told(outcome, key, script)
      ensures DoneOrGone(world, key.0, old(world.base.rows[key.0]))
      ensures script.fail == Runs ==> outcome == FailureHandled(false)
    {
      ghost var row := world.base.rows[key.0];
      AnyoneElse(key, row);
      if script.fail != Runs {
        return if script.fail.Breaks? then Unrecorded else Aborted;
      }
      MissedFailure(maxRetries, world, key.0, row, workerId, script.closed.error);
      var failed := dao.MarkFailure(key.0, workerId, script.closed.error, maxRetries, world.base.now);
      marks := marks + [Mark(Op.MarkFailure(key.0, workerId, script.closed.error, maxRetries), failed.Some?)];
      assert marks[..3] == old(marks);
      outcome := FailureHandled(failed.Some?);
    }

    // Time passes after the execution has ended.
    method AnyoneElse(key: Key, ghost row: Row)
      requires Valid() && Ended(world, key) && !Current(world, key) && DoneOrGone(world, key.0, row)
      modifies this`world, this`run, dao
      ensures Valid() && Ended(world, key) && !Current(world, key) && DoneOrGone(world, key.0, row)
      ensures old(world).answers <= world.answers
    {
      assert CanRun(maxRetries, [], world);
      var acts: seq<Act> :| CanRun(maxRetries, acts, world);
      DoneRun(maxRetries, acts, world, key.0, row);
      EndedRun(maxRetries, acts, world, key);
      LossIsForever(maxRetries, acts, world, key);
      SysInvRun(maxRetries, acts, world);
      Then(maxRetries, run, acts, origin, world, DoAll(acts, world));
      world := DoAll(acts, world);
      run := run + acts;
      dao.rows := world.base.rows;
    }
  }
}
