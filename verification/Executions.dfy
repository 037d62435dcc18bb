// Executions of tasks on top of the queue. Each claim starts one execution,
// known by the task and the number of the claim. It walks through `process`:
// check the row, renew once, transcribe, mark, summarize, mark, or record a
// failure; its renewal loop runs beside it. Between any two of its steps any
// other execution, client or reclaimer may act, and a worker may crash.
module Executions {
  import opened Options
  import opened Tasks
  import opened Protocol

  type Key = (TaskId, nat)  // task and claim number

  datatype Phase =
    | Starting
    | Entering
    | InAsr
    | HasTranscript(transcript: string)
    | InLlm(transcript: string)
    | HasSummary(transcript: string, summary: Summary)
    | Refused                // a mark was refused; its transaction is being rolled back
    | Failing(error: string)

  datatype Exec = Exec(worker: WorkerId, phase: Phase, leaseLost: bool)

  // One answered call of the summarizer.
  datatype Answer = Answer(key: Key, transcript: string, summary: Summary)

  datatype Sys = Sys(base: State, live: map<Key, Exec>, answers: set<Answer>)

  datatype Act =
    | World(op: Op)                       // clients, reclaimers, shutdown, time
    | ClaimTasks(claim: Op)
    | Check(key: Key)
    | Enter(key: Key, lease: Time)        // first renewal
    | RenewAgain(key: Key, lease: Time)   // one turn of the renewal loop
    | Transcribe(key: Key, text: string)
    | SaveTranscript(key: Key)
    | Summarize(key: Key, summary: Summary)
    | SaveSummary(key: Key)
    | Raise(key: Key, error: string)
    | SaveFailure(key: Key, maxRetries: nat)
    | Leave(key: Key)                     // lease lost, cancelled, or failure not recorded
    | Crash(worker: WorkerId)

  function Idle(start: Time): Sys {
    Sys(Empty(start), map[], {})
  }

  // The statement an act sends to the database, if any.
  function Sent(act: Act, s: Sys): Option<Op> {
    match act
    case World(op) => Some(op)
    case ClaimTasks(claim) => Some(claim)
    case Enter(key, lease) =>
      if key in s.live then Some(Renew(key.0, s.live[key].worker, lease)) else None
    case RenewAgain(key, lease) =>
      if key in s.live then Some(Renew(key.0, s.live[key].worker, lease)) else None
    case SaveTranscript(key) =>
      if key in s.live && s.live[key].phase.HasTranscript? then
        Some(Op.MarkSummarizing(key.0, s.live[key].worker, s.live[key].phase.transcript))
      else None
    case SaveSummary(key) =>
      if key in s.live && s.live[key].phase.HasSummary? then
        Some(Op.MarkDone(key.0, s.live[key].worker, s.live[key].phase.summary))
      else None
    case SaveFailure(key, maxRetries) =>
      if key in s.live && s.live[key].phase.Failing? then
        Some(Op.MarkFailure(key.0, s.live[key].worker, s.live[key].phase.error, maxRetries))
      else None
    case _ => None
  }

  // Whether the statement's WHERE clause matches a row of task `id`.
  predicate Hits(op: Option<Op>, s: State, id: TaskId) {
    op.Some? && id in s.rows && Where(op.value, id, s.rows[id])
  }

  function BaseAfter(act: Act, s: Sys): State {
    var op := Sent(act, s);
    if op.Some? then Apply(op.value, s.base) else s.base
  }

  function Claimed(claim: Op, s: State): set<Key>
    requires claim.Claim?
  {
    set id | id in claim.ids && id in s.log :: (id, s.log[id].claims + 1)
  }

  function Started(claim: Op, s: State): map<Key, Exec>
    requires claim.Claim?
  {
    map key | key in Claimed(claim, s) :: Exec(claim.worker, Starting, false)
  }

  // `process` goes on past its first read only for a task it still holds.
  predicate CheckPasses(rows: Table, e: Exec, id: TaskId) {
    id in rows && rows[id].status == Transcribing && rows[id].lockedBy == Some(e.worker)
  }

  // How an execution's own act moves it on, if it stays at all.
  function Moved(act: Act, hit: bool, rows: Table, key: Key, e: Exec): Option<Exec> {
    match act
    case Check(_) => if CheckPasses(rows, e, key.0) then Some(e.(phase := Entering)) else None
    case Enter(_, _) => Some(e.(phase := InAsr, leaseLost := !hit))
    case RenewAgain(_, _) => Some(e.(leaseLost := e.leaseLost || !hit))
    case Transcribe(_, text) => Some(e.(phase := HasTranscript(text)))
    case SaveTranscript(_) =>
      Some(e.(phase := if hit && e.phase.HasTranscript? then InLlm(e.phase.transcript) else Refused))
    case Summarize(_, summary) =>
      if e.phase.InLlm? then Some(e.(phase := HasSummary(e.phase.transcript, summary))) else None
    case SaveSummary(_) => if hit then None else Some(e.(phase := Refused))
    case Raise(_, error) => Some(e.(phase := Failing(error)))
    case _ => None
  }

  function LiveAfter(act: Act, s: Sys): map<Key, Exec> {
    match act
    case World(_) => s.live
    case ClaimTasks(claim) => if claim.Claim? then s.live + Started(claim, s.base) else s.live
    case Crash(worker) => map key | key in s.live && s.live[key].worker != worker :: s.live[key]
    case _ =>
      if act.key !in s.live then s.live else
      var next := Moved(act, Hits(Sent(act, s), s.base, act.key.0), s.base.rows, act.key, s.live[act.key]);
      if next.Some? then s.live[act.key := next.value] else s.live - {act.key}
  }

  function AnswersAfter(act: Act, s: Sys): set<Answer> {
    if act.Summarize? && act.key in s.live && s.live[act.key].phase.InLlm? then
      s.answers + {Answer(act.key, s.live[act.key].phase.transcript, act.summary)}
    else s.answers
  }

  function Do(act: Act, s: Sys): Sys {
    Sys(BaseAfter(act, s), LiveAfter(act, s), AnswersAfter(act, s))
  }

  predicate InKeepalive(p: Phase) {
    p.InAsr? || p.HasTranscript? || p.InLlm? || p.HasSummary? || p.Refused?
  }

  predicate Can(maxRetries: nat, act: Act, s: Sys) {
    && (Sent(act, s).Some? ==> Legal(maxRetries, Sent(act, s).value, s.base))
    && match act
       case World(op) =>
         op.Create? || op.Requeue? || op.Reclaim? || op.ResetAborted? || op.Delete? || op.Tick?
       case ClaimTasks(claim) => claim.Claim?
       case Check(key) => key in s.live && s.live[key].phase == Starting
       case Enter(key, _) => key in s.live && s.live[key].phase == Entering
       case RenewAgain(key, _) => key in s.live && InKeepalive(s.live[key].phase) && !s.live[key].leaseLost
       case Transcribe(key, _) => key in s.live && s.live[key].phase == InAsr && !s.live[key].leaseLost
       case SaveTranscript(key) => key in s.live && s.live[key].phase.HasTranscript?
       case Summarize(key, summary) =>
         key in s.live && s.live[key].phase.InLlm? && !s.live[key].leaseLost && summary != []
       case SaveSummary(key) => key in s.live && s.live[key].phase.HasSummary?
       case Raise(key, _) => key in s.live && !s.live[key].phase.Failing?
       case SaveFailure(key, limit) => key in s.live && s.live[key].phase.Failing? && limit == maxRetries
       case Leave(key) => key in s.live
       case Crash(_) => true
  }

  // Distinct worker ids, and no claim by a worker of a task that an earlier
  // execution of its own is still working on.
  predicate NoSelfReclaim(act: Act, s: Sys) {
    act.ClaimTasks? && act.claim.Claim? ==>
      forall key :: key in s.live && key.0 in act.claim.ids ==> s.live[key].worker != act.claim.worker
  }

  // ----- The fence

  // The worker id on a row stands for the latest claim: any live execution
  // whose worker's name is on the row is the execution of that claim.
  ghost predicate Fenced(s: Sys) {
    forall key :: key in s.live && key.0 in s.base.rows && key.0 in s.base.log ==>
      s.base.rows[key.0].lockedBy == Some(s.live[key].worker) ==> key.1 == s.base.log[key.0].claims
  }

  ghost predicate Fits(p: Phase, r: Row) {
    match p
    case InLlm(t) => r.status == Summarizing && r.transcript == Some(t)
    case HasSummary(t, _) => r.status == Summarizing && r.transcript == Some(t)
    case Refused => true
    case Failing(_) => true
    case _ => r.status == Transcribing
  }

  ghost predicate ExecInv(s: Sys, key: Key)
    requires key in s.live
  {
    && key.0 in s.base.log && key.1 <= s.base.log[key.0].claims
    && (s.live[key].phase.HasSummary? ==>
          && s.live[key].phase.summary != []
          && Answer(key, s.live[key].phase.transcript, s.live[key].phase.summary) in s.answers)
    && (key.0 in s.base.rows && key.1 == s.base.log[key.0].claims && s.base.rows[key.0].status.InFlight() ==>
          && s.base.rows[key.0].lockedBy == Some(s.live[key].worker)
          && Fits(s.live[key].phase, s.base.rows[key.0]))
  }

  // The stored result is the summarizer's answer to the stored transcript,
  // given to the execution of the task's last claim.
  ghost predicate ResultInv(s: Sys, id: TaskId)
    requires id in s.base.rows && id in s.base.log
  {
    var r := s.base.rows[id];
    r.status == Done ==>
      && r.transcript.Some? && r.summary.Some?
      && Answer((id, s.base.log[id].claims), r.transcript.value, r.summary.value) in s.answers
  }

  ghost predicate SysInv(maxRetries: nat, s: Sys) {
    && Inv(maxRetries, s.base)
    && Fenced(s)
    && (forall key :: key in s.live ==> ExecInv(s, key))
    && (forall id :: id in s.base.rows && id in s.base.log ==> ResultInv(s, id))
  }

  // The execution of the latest claim, still holding its task.
  ghost predicate Current(s: Sys, key: Key) {
    && key.0 in s.base.rows && key.0 in s.base.log
    && s.base.rows[key.0].status.InFlight() && key.1 == s.base.log[key.0].claims
  }

  lemma HolderIsCurrent(maxRetries: nat, s: Sys, key: Key)
    requires SysInv(maxRetries, s) && key in s.live
    ensures Current(s, key) <==>
      key.0 in s.base.rows && s.base.rows[key.0].lockedBy == Some(s.live[key].worker)
  {
    assert ExecInv(s, key);
  }

  predicate IsMark(act: Act, maxRetries: nat, key: Key) {
    act == SaveTranscript(key) || act == SaveSummary(key) || act == SaveFailure(key, maxRetries)
  }

  lemma MarksTestTheHolder(maxRetries: nat, s: Sys, act: Act, key: Key, id: TaskId)
    requires Can(maxRetries, act, s) && key in s.live && IsMark(act, maxRetries, key)
    ensures Sent(act, s).Some?
    ensures Hits(Sent(act, s), s.base, id) <==>
      id == key.0 && id in s.base.rows && s.base.rows[id].lockedBy == Some(s.live[key].worker)
    ensures Sent(act, s).value.MarkSummarizing? || Sent(act, s).value.MarkDone? || Sent(act, s).value.MarkFailure?
  {
  }

  lemma MissesChangeNothing(op: Op, s: State)
    requires op.MarkSummarizing? || op.MarkDone? || op.MarkFailure?
    requires forall id :: !Hits(Some(op), s, id)
    ensures Apply(op, s).rows == s.rows
  {
    forall id | id in s.rows ensures !Where(op, id, s.rows[id]) {
      assert !Hits(Some(op), s, id);
    }
  }

  // A statement of a live execution is accepted exactly when the execution is
  // that of the latest claim, and then finds the row in the stage it expects.
  lemma FenceIsEpoch(maxRetries: nat, s: Sys, act: Act, key: Key)
    requires SysInv(maxRetries, s) && Can(maxRetries, act, s) && key in s.live && IsMark(act, maxRetries, key)
    ensures key.0 in s.base.log && (Hits(Sent(act, s), s.base, key.0) <==> Current(s, key))
    ensures !Current(s, key) ==> Do(act, s).base.rows == s.base.rows
    ensures Current(s, key) ==>
      && (act.SaveTranscript? ==> s.base.rows[key.0].status == Transcribing)
      && (act.SaveSummary? ==> s.base.rows[key.0].status == Summarizing)
  {
    HolderIsCurrent(maxRetries, s, key);
    assert ExecInv(s, key);
    MarksTestTheHolder(maxRetries, s, act, key, key.0);
    if !Current(s, key) {
      forall id ensures !Hits(Sent(act, s), s.base, id) {
        MarksTestTheHolder(maxRetries, s, act, key, id);
      }
      MissesChangeNothing(Sent(act, s).value, s.base);
    }
  }

  // ----- Every act keeps the invariant, one execution at a time

  ghost predicate KeyInv(s: Sys, key: Key)
    requires key in s.live
  {
    && ExecInv(s, key)
    && (key.0 in s.base.rows && s.base.rows[key.0].lockedBy == Some(s.live[key].worker) ==>
          key.1 == s.base.log[key.0].claims)
  }

  // Statements other than claims leave a row to its holder, or free it.
  lemma HolderKept(maxRetries: nat, op: Op, s: State, id: TaskId)
    requires Inv(maxRetries, s) && Legal(maxRetries, op, s) && !op.Claim? && id in s.log
    ensures id in Apply(op, s).log && Apply(op, s).log[id].claims == s.log[id].claims
    ensures id in Apply(op, s).rows ==>
      && id in s.rows
      && Apply(op, s).rows[id] == RowAfter(op, s.now, id, s.rows[id])
  {
  }

  lemma OthersKept(maxRetries: nat, op: Op, s: Sys, t: Sys, key: Key)
    requires SysInv(maxRetries, s) && Legal(maxRetries, op, s.base) && !op.Claim?
    requires key in s.live && key in t.live && t.live[key] == s.live[key]
    requires t.base == Apply(op, s.base) && s.answers <= t.answers
    requires !(op.MarkSummarizing? && Hits(Some(op), s.base, key.0) && key.1 == s.base.log[key.0].claims)
    ensures KeyInv(t, key)
  {
    assert ExecInv(s, key);
    HolderKept(maxRetries, op, s.base, key.0);
  }

  lemma WorldKeepsKey(maxRetries: nat, act: Act, s: Sys, key: Key)
    requires SysInv(maxRetries, s) && Can(maxRetries, act, s) && act.World? && key in s.live
    ensures KeyInv(Do(act, s), key)
  {
    OthersKept(maxRetries, act.op, s, Do(act, s), key);
  }

  lemma ClaimKeepsKey(maxRetries: nat, act: Act, s: Sys, key: Key)
    requires SysInv(maxRetries, s) && Can(maxRetries, act, s) && act.ClaimTasks? && NoSelfReclaim(act, s)
    requires key in Do(act, s).live
    ensures KeyInv(Do(act, s), key)
  {
    if key !in Claimed(act.claim, s.base) {
      assert ExecInv(s, key);
    }
  }

  lemma OwnActKeepsKey(maxRetries: nat, act: Act, s: Sys, key: Key)
    requires SysInv(maxRetries, s) && Can(maxRetries, act, s)
    requires !act.World? && !act.ClaimTasks? && !act.Crash? && act.key == key
    requires key in Do(act, s).live
    ensures KeyInv(Do(act, s), key)
  {
    assert ExecInv(s, key);
    if Sent(act, s).Some? {
      HolderKept(maxRetries, Sent(act, s).value, s.base, key.0);
    }
  }

  lemma OtherActKeepsKey(maxRetries: nat, act: Act, s: Sys, key: Key)
    requires SysInv(maxRetries, s) && Can(maxRetries, act, s)
    requires !act.World? && !act.ClaimTasks? && !act.Crash? && act.key != key
    requires key in Do(act, s).live
    ensures KeyInv(Do(act, s), key)
  {
    assert key in s.live && ExecInv(s, key);
    if Sent(act, s).Some? {
      var op := Sent(act, s).value;
      if act.SaveTranscript? {
        FenceIsEpoch(maxRetries, s, act, act.key);
      }
      OthersKept(maxRetries, op, s, Do(act, s), key);
    }
  }

  lemma CrashKeepsKey(maxRetries: nat, act: Act, s: Sys, key: Key)
    requires SysInv(maxRetries, s) && act.Crash? && key in Do(act, s).live
    ensures KeyInv(Do(act, s), key)
  {
    assert ExecInv(s, key);
  }

  lemma KeyKept(maxRetries: nat, act: Act, s: Sys, key: Key)
    requires SysInv(maxRetries, s) && Can(maxRetries, act, s) && NoSelfReclaim(act, s)
    requires key in Do(act, s).live
    ensures KeyInv(Do(act, s), key)
  {
    match act
    case World(_) => WorldKeepsKey(maxRetries, act, s, key);
    case ClaimTasks(_) => ClaimKeepsKey(maxRetries, act, s, key);
    case Crash(_) => CrashKeepsKey(maxRetries, act, s, key);
    case _ =>
      if act.key == key {
        OwnActKeepsKey(maxRetries, act, s, key);
      } else {
        OtherActKeepsKey(maxRetries, act, s, key);
      }
  }

  lemma DoneComesFromMarkDone(maxRetries: nat, op: Op, s: State, id: TaskId)
    requires Inv(maxRetries, s) && Legal(maxRetries, op, s)
    requires id in Apply(op, s).rows && Apply(op, s).rows[id].status == Done
    ensures id in s.rows && id in s.log && id in Apply(op, s).log
    ensures op.MarkDone? || Apply(op, s).rows[id] == s.rows[id]
    ensures Apply(op, s).log[id].claims == s.log[id].claims
  {
  }

  lemma SavedResultFits(maxRetries: nat, act: Act, s: Sys, id: TaskId)
    requires SysInv(maxRetries, s) && Can(maxRetries, act, s) && act.SaveSummary?
    requires id in Do(act, s).base.rows && id in Do(act, s).base.log
    ensures ResultInv(Do(act, s), id)
  {
    var op := Sent(act, s).value;
    assert ExecInv(s, act.key);
    HolderKept(maxRetries, op, s.base, id);
    assert ResultInv(s, id);
    if id == act.key.0 && Hits(Some(op), s.base, id) {
      FenceIsEpoch(maxRetries, s, act, act.key);
    }
  }

  lemma ResultKept(maxRetries: nat, act: Act, s: Sys, id: TaskId)
    requires SysInv(maxRetries, s) && Can(maxRetries, act, s)
    requires id in Do(act, s).base.rows && id in Do(act, s).base.log
    ensures ResultInv(Do(act, s), id)
  {
    var op := Sent(act, s);
    if act.SaveSummary? {
      SavedResultFits(maxRetries, act, s, id);
    } else if op.Some? && Do(act, s).base.rows[id].status == Done {
      DoneComesFromMarkDone(maxRetries, op.value, s.base, id);
      assert ResultInv(s, id);
    } else if op == None {
      assert ResultInv(s, id);
    }
  }

  lemma SysInvStep(maxRetries: nat, act: Act, s: Sys)
    requires SysInv(maxRetries, s) && Can(maxRetries, act, s) && NoSelfReclaim(act, s)
    ensures SysInv(maxRetries, Do(act, s))
  {
    var t := Do(act, s);
    var op := Sent(act, s);
    if op.Some? {
      InvStep(maxRetries, op.value, s.base);
    }
    forall key | key in t.live ensures KeyInv(t, key) {
      KeyKept(maxRetries, act, s, key);
    }
    assert Fenced(t);
    forall id | id in t.base.rows && id in t.base.log ensures ResultInv(t, id) {
      ResultKept(maxRetries, act, s, id);
    }
  }

  // ----- Whole runs

  predicate CanRun(maxRetries: nat, acts: seq<Act>, s: Sys)
    decreases |acts|
  {
    acts != [] ==>
      && Can(maxRetries, acts[0], s)
      && NoSelfReclaim(acts[0], s)
      && CanRun(maxRetries, acts[1..], Do(acts[0], s))
  }

  function DoAll(acts: seq<Act>, s: Sys): Sys
    decreases |acts|
  {
    if acts == [] then s else DoAll(acts[1..], Do(acts[0], s))
  }

  // A run of the system from s to t.
  ghost predicate Leads(maxRetries: nat, acts: seq<Act>, s: Sys, t: Sys) {
    CanRun(maxRetries, acts, s) && DoAll(acts, s) == t
  }

  lemma {:induction false} Then(maxRetries: nat, a: seq<Act>, b: seq<Act>, s: Sys, t: Sys, u: Sys)
    requires Leads(maxRetries, a, s, t) && Leads(maxRetries, b, t, u)
    ensures Leads(maxRetries, a + b, s, u)
    decreases |a|
  {
    if a == [] {
      assert a + b == b;
    } else {
      Then(maxRetries, a[1..], b, Do(a[0], s), t, u);
      assert (a + b)[1..] == a[1..] + b;
    }
  }

  lemma One(maxRetries: nat, act: Act, s: Sys, t: Sys) returns (acts: seq<Act>)
    requires Can(maxRetries, act, s) && NoSelfReclaim(act, s) && Do(act, s) == t
    ensures acts == [act] && Leads(maxRetries, acts, s, t)
  {
    acts := [act];
    assert acts[1..] == [];
  }

  lemma {:induction false} SysInvRun(maxRetries: nat, acts: seq<Act>, s: Sys)
    requires SysInv(maxRetries, s) && CanRun(maxRetries, acts, s)
    ensures SysInv(maxRetries, DoAll(acts, s))
    decreases |acts|
  {
    if acts != [] {
      SysInvStep(maxRetries, acts[0], s);
      SysInvRun(maxRetries, acts[1..], Do(acts[0], s));
    }
  }

  // A done task holds a transcript and the summarizer's answer to exactly that
  // transcript, both from the execution of its last claim.
  lemma {:induction false} DoneResultIsOneExecution(maxRetries: nat, acts: seq<Act>, start: Time, id: TaskId)
    requires CanRun(maxRetries, acts, Idle(start))
    requires
      var s := DoAll(acts, Idle(start));
      id in s.base.rows && s.base.rows[id].status == Done
    ensures
      var s := DoAll(acts, Idle(start));
      var r := s.base.rows[id];
      && id in s.base.log && r.transcript.Some? && r.summary.Some?
      && Answer((id, s.base.log[id].claims), r.transcript.value, r.summary.value) in s.answers
  {
    SysInvRun(maxRetries, acts, Idle(start));
    assert ResultInv(DoAll(acts, Idle(start)), id);
  }

  // In every run a mark is accepted exactly when it comes from the execution
  // of the latest claim and that claim has not been released; a refused mark
  // changes no row.
  lemma {:induction false} StaleMarksChangeNothing(maxRetries: nat, acts: seq<Act>, start: Time, act: Act, key: Key)
    requires CanRun(maxRetries, acts, Idle(start))
    requires Can(maxRetries, act, DoAll(acts, Idle(start))) && key in DoAll(acts, Idle(start)).live
    requires IsMark(act, maxRetries, key)
    ensures
      var s := DoAll(acts, Idle(start));
      && (Hits(Sent(act, s), s.base, key.0) <==> Current(s, key))
      && (!Current(s, key) ==> Do(act, s).base.rows == s.base.rows)
  {
    SysInvRun(maxRetries, acts, Idle(start));
    FenceIsEpoch(maxRetries, DoAll(acts, Idle(start)), act, key);
  }

  // A renewal reports the lease lost exactly when it is.
  lemma RenewalReportsLoss(maxRetries: nat, s: Sys, act: Act, key: Key)
    requires SysInv(maxRetries, s) && Can(maxRetries, act, s)
    requires (act.Enter? || act.RenewAgain?) && act.key == key
    ensures key in s.live && key in Do(act, s).live
    ensures Do(act, s).live[key].leaseLost <==> !Current(s, key)
    ensures Current(s, key) ==>
      Current(Do(act, s), key) && Do(act, s).base.rows[key.0].leaseExpiresAt == Some(s.base.now + act.lease)
  {
    HolderIsCurrent(maxRetries, s, key);
    HolderKept(maxRetries, Sent(act, s).value, s.base, key.0);
  }

  lemma StaleStep(maxRetries: nat, op: Op, s: State, key: Key)
    requires Inv(maxRetries, s) && Legal(maxRetries, op, s)
    requires key.0 in s.log && key.1 <= s.log[key.0].claims
    requires !(key.0 in s.rows && s.rows[key.0].status.InFlight() && key.1 == s.log[key.0].claims)
    ensures
      var t := Apply(op, s);
      && key.0 in t.log && key.1 <= t.log[key.0].claims
      && !(key.0 in t.rows && t.rows[key.0].status.InFlight() && key.1 == t.log[key.0].claims)
  {
  }

  // An execution that lost its claim never gets it back, so by FenceIsEpoch
  // nothing it sends is ever accepted again.
  lemma {:induction false} LossIsForever(maxRetries: nat, acts: seq<Act>, s: Sys, key: Key)
    requires SysInv(maxRetries, s) && CanRun(maxRetries, acts, s)
    requires key.0 in s.base.log && key.1 <= s.base.log[key.0].claims && !Current(s, key)
    ensures !Current(DoAll(acts, s), key)
    decreases |acts|
  {
    if acts != [] {
      if Sent(acts[0], s).Some? {
        StaleStep(maxRetries, Sent(acts[0], s).value, s.base, key);
      }
      SysInvStep(maxRetries, acts[0], s);
      LossIsForever(maxRetries, acts[1..], Do(acts[0], s), key);
    }
  }

  // ----- Tasks that nobody works on

  // In flight, but the execution of the latest claim has ended, or was never
  // started.
  ghost predicate Orphaned(s: Sys, id: TaskId) {
    && id in s.base.rows && id in s.base.log && s.base.rows[id].status.InFlight()
    && (id, s.base.log[id].claims) !in s.live
  }

  // Deletion, a worker's reset or start, or a reclaim once the lease has lapsed.
  ghost predicate Frees(act: Act, s: Sys, id: TaskId) {
    && act.World? && Hits(Some(act.op), s.base, id)
    && match act.op
       case Delete(_) => true
       case ResetAborted(_, worker, _) => s.base.rows[id].lockedBy == Some(worker)
       case Reclaim(_, worker, own, _, at) =>
         (own && s.base.rows[id].lockedBy == Some(worker)) || LeaseExpired(s.base.rows[id], at)
       case _ => false
  }

  lemma OrphanHasNoHolder(maxRetries: nat, s: Sys, id: TaskId, key: Key)
    requires SysInv(maxRetries, s) && Orphaned(s, id) && key in s.live && key.0 == id
    ensures s.base.rows[id].lockedBy != Some(s.live[key].worker)
  {
    HolderIsCurrent(maxRetries, s, key);
  }

  lemma OrphanStep(maxRetries: nat, act: Act, s: Sys, id: TaskId)
    requires SysInv(maxRetries, s) && Can(maxRetries, act, s) && Orphaned(s, id) && !Frees(act, s, id)
    ensures Orphaned(Do(act, s), id) && Do(act, s).base.rows[id] == s.base.rows[id]
  {
    if Sent(act, s).Some? {
      OrphanMissed(maxRetries, act, s, id);
      OrphanRowKept(maxRetries, Sent(act, s).value, s.base, id);
    }
  }

  lemma OrphanMissed(maxRetries: nat, act: Act, s: Sys, id: TaskId)
    requires SysInv(maxRetries, s) && Can(maxRetries, act, s) && Orphaned(s, id) && !Frees(act, s, id)
    ensures !Hits(Sent(act, s), s.base, id)
  {
    if !act.World? && !act.ClaimTasks? && !act.Crash? && act.key in s.live && act.key.0 == id {
      OrphanHasNoHolder(maxRetries, s, id, act.key);
    }
  }

  lemma OrphanRowKept(maxRetries: nat, op: Op, s: State, id: TaskId)
    requires Legal(maxRetries, op, s) && id in s.rows && id in s.log && !Where(op, id, s.rows[id])
    ensures id in Apply(op, s).rows && Apply(op, s).rows[id] == s.rows[id]
    ensures id in Apply(op, s).log && Apply(op, s).log[id] == s.log[id]
  {
  }

  // Such a task stays exactly as it is until one of these frees it.
  lemma {:induction false} OrphanWaits(maxRetries: nat, acts: seq<Act>, s: Sys, id: TaskId) returns (k: nat)
    requires SysInv(maxRetries, s) && CanRun(maxRetries, acts, s) && Orphaned(s, id)
    ensures k <= |acts| && id in DoAll(acts[..k], s).base.rows
    ensures DoAll(acts[..k], s).base.rows[id] == s.base.rows[id]
    ensures k == |acts| || Frees(acts[k], DoAll(acts[..k], s), id)
    decreases |acts|
  {
    if acts == [] || Frees(acts[0], s, id) {
      k := 0;
    } else {
      OrphanStep(maxRetries, acts[0], s, id);
      SysInvStep(maxRetries, acts[0], s);
      var j := OrphanWaits(maxRetries, acts[1..], Do(acts[0], s), id);
      k := j + 1;
      assert acts[..k][1..] == acts[1..][..j];
    }
  }

  lemma SelfClaimBreaksFence(maxRetries: nat, s: Sys, act: Act, key: Key)
    requires SysInv(maxRetries, s) && act.ClaimTasks? && Can(maxRetries, act, s)
    requires key in s.live && key.0 in act.claim.ids && s.live[key].worker == act.claim.worker
    ensures !Fenced(Do(act, s))
  {
    var t := Do(act, s);
    assert ExecInv(s, key);
    assert key !in Claimed(act.claim, s.base);
    assert key in t.live && key.0 in t.base.rows && key.0 in t.base.log;
    assert t.base.rows[key.0].lockedBy == Some(t.live[key].worker) && key.1 < t.base.log[key.0].claims;
  }

  // The hypothesis is exact: a claim keeps the fence if and only if its worker
  // has no live execution of a task it claims.
  lemma ClaimKeepsFenceIff(maxRetries: nat, s: Sys, act: Act)
    requires SysInv(maxRetries, s) && act.ClaimTasks? && Can(maxRetries, act, s)
    ensures Fenced(Do(act, s)) <==> NoSelfReclaim(act, s)
  {
    if NoSelfReclaim(act, s) {
      SysInvStep(maxRetries, act, s);
    } else {
      var key :| key in s.live && key.0 in act.claim.ids && s.live[key].worker == act.claim.worker;
      SelfClaimBreaksFence(maxRetries, s, act, key);
    }
  }
}
