// The reclaim-and-claim transaction, opened up. Any number of dispatchers run
// it at once: begin (which fixes the transaction's now()), lock and reset
// lapsed rows one by one, pick due rows with SKIP LOCKED, update the picked
// rows by id alone, then commit or roll back. Every other statement is its own
// transaction and waits for a row lock only if it would change that row.
module Claims {
  import opened Options
  import opened Tasks
  import opened Protocol
  import opened QueueLaws

  type TxId = nat

  datatype Tx = Tx(
    worker: WorkerId,
    limit: int,
    lease: Time,
    at: Time,
    reclaimed: set<TaskId>,
    picked: Option<set<TaskId>>,
    updated: bool,
    writes: Table)
  {
    function Picked(): set<TaskId> {
      if picked.Some? then picked.value else {}
    }

    function Locks(): set<TaskId> {
      reclaimed + Picked()
    }
  }

  datatype Db = Db(rows: Table, used: set<TaskId>, now: Time, open: map<TxId, Tx>)

  datatype Step =
    | Begin(tx: TxId, worker: WorkerId, limit: int, lease: Time)
    | ReclaimRow(tx: TxId, id: TaskId)
    | Pick(tx: TxId, ids: set<TaskId>)
    | Update(tx: TxId)
    | Commit(tx: TxId)
    | Rollback(tx: TxId)
    | Statement(op: Op)

  const LAPSED := "lease expired, task interrupted, ready to retry"

  function OpenDb(start: Time): Db {
    Db(map[], {}, start, map[])
  }

  function ReclaimOp(t: Tx): Op {
    Op.Reclaim(t.reclaimed, t.worker, false, LAPSED, t.at)
  }

  function ClaimOp(t: Tx): Op {
    Op.Claim(t.Picked(), t.limit, t.worker, t.lease, t.at)
  }

  ghost predicate Unlocked(db: Db, me: TxId, id: TaskId) {
    forall x :: x in db.open && x != me ==> id !in db.open[x].Locks()
  }

  // The row as transaction t sees it: its own writes over the committed rows.
  function View(rows: Table, t: Tx, id: TaskId): Row
    requires id in rows
  {
    if id in t.writes then t.writes[id] else rows[id]
  }

  // A statement waits while it would change a locked row, or a new row while
  // its id is taken.
  ghost predicate Waits(db: Db, op: Op) {
    exists x, id :: x in db.open && id in db.open[x].Locks() && id in db.rows &&
      (id !in After(op, db.now, db.rows) || After(op, db.now, db.rows)[id] != db.rows[id])
  }

  ghost predicate LegalStatement(maxRetries: nat, db: Db, op: Op) {
    match op
    case Create(id, recording) =>
      id !in db.used && forall other :: other in db.rows ==> db.rows[other].recording != recording
    case Claim(_, _, _, _, _) => false
    case Renew(_, _, lease) => 0.0 <= lease
    case MarkDone(_, _, summary) => summary != []
    case MarkFailure(_, _, _, limit) => limit == maxRetries
    case Reclaim(_, _, _, _, at) => at == db.now
    case Tick(elapsed) => 0.0 <= elapsed
    case _ => true
  }

  ghost predicate Enabled(maxRetries: nat, step: Step, db: Db) {
    match step
    case Begin(x, _, _, lease) => x !in db.open && 0.0 <= lease
    case ReclaimRow(x, id) =>
      && x in db.open && db.open[x].picked == None
      && id in db.rows && Unlocked(db, x, id) && id !in db.open[x].reclaimed
      && Reclaimable(db.rows[id], db.open[x].worker, false, db.open[x].at)
    case Pick(x, ids) =>
      && x in db.open && db.open[x].picked == None
      && |ids| <= (if db.open[x].limit > 0 then db.open[x].limit else 0)
      && (forall id :: id in ids ==> id in db.rows && Unlocked(db, x, id) && Due(View(db.rows, db.open[x], id), db.open[x].at))
    case Update(x) => x in db.open && db.open[x].picked.Some? && !db.open[x].updated
    case Commit(x) => x in db.open && db.open[x].updated
    case Rollback(x) => x in db.open
    case Statement(op) => LegalStatement(maxRetries, db, op) && !Waits(db, op)
  }

  function Perform(step: Step, db: Db): Db {
    match step
    case Begin(x, worker, limit, lease) =>
      db.(open := db.open[x := Tx(worker, limit, lease, db.now, {}, None, false, map[])])
    case ReclaimRow(x, id) =>
      if x in db.open && id in db.rows then
        var t := db.open[x];
        db.(open := db.open[x := t.(reclaimed := t.reclaimed + {id},
                                    writes := t.writes[id := Released(db.rows[id], LAPSED, t.at)])])
      else db
    case Pick(x, ids) =>
      if x in db.open then db.(open := db.open[x := db.open[x].(picked := Some(ids))]) else db
    case Update(x) =>
      if x in db.open then
        var t := db.open[x];
        db.(open := db.open[x := t.(updated := true, writes := t.writes + UpdatedRows(db.rows, t))])
      else db
    case Commit(x) =>
      if x in db.open then db.(rows := db.rows + db.open[x].writes, open := db.open - {x}) else db
    case Rollback(x) => db.(open := db.open - {x})
    case Statement(op) =>
      db.(rows := After(op, db.now, db.rows),
          used := if op.Create? then db.used + {op.id} else db.used,
          now := if op.Tick? then db.now + op.elapsed else db.now)
  }

  // UPDATE ... WHERE id IN (picked): no status in the guard.
  function UpdatedRows(rows: Table, t: Tx): Table {
    map id | id in t.Picked() && id in rows :: Set(ClaimOp(t), t.at, View(rows, t, id))
  }

  // ----- What open transactions may rely on

  ghost predicate TxInv(rows: Table, now: Time, t: Tx) {
    && t.at <= now && 0.0 <= t.lease
    && t.Locks() <= rows.Keys
    && |t.Picked()| <= (if t.limit > 0 then t.limit else 0)
    && (forall id :: id in t.reclaimed ==> Reclaimable(rows[id], t.worker, false, t.at))
    && (forall id :: id in t.Picked() && id !in t.reclaimed ==> Due(rows[id], t.at))
    && t.writes == WritesOf(rows, t)
    && (t.updated ==> t.picked.Some?)
  }

  // What the transaction has written so far, from the rows as they are now.
  function WritesOf(rows: Table, t: Tx): Table {
    map id | id in t.Locks() && id in rows && (id in t.reclaimed || t.updated) ::
      var r := if id in t.reclaimed then Released(rows[id], LAPSED, t.at) else rows[id];
      if t.updated && id in t.Picked() then Set(ClaimOp(t), t.at, r) else r
  }

  ghost predicate Disjoint(open: map<TxId, Tx>) {
    forall x, y :: x in open && y in open && x != y ==> open[x].Locks() !! open[y].Locks()
  }

  ghost predicate DbInv(db: Db) {
    && (forall x :: x in db.open ==> TxInv(db.rows, db.now, db.open[x]))
    && Disjoint(db.open)
  }

  // Rows under an open transaction's locks stay as they were, and so its view.
  lemma SameWrites(rows: Table, after: Table, t: Tx)
    requires t.Locks() <= rows.Keys
    requires forall id :: id in t.Locks() ==> id in after && after[id] == rows[id]
    ensures WritesOf(after, t) == WritesOf(rows, t)
  {
  }

  lemma TxKept(db: Db, after: Db, t: Tx)
    requires TxInv(db.rows, db.now, t) && db.now <= after.now
    requires forall id :: id in t.Locks() ==> id in after.rows && after.rows[id] == db.rows[id]
    ensures TxInv(after.rows, after.now, t)
  {
    SameWrites(db.rows, after.rows, t);
  }

  lemma PickedStillMatch(db: Db, x: TxId)
    requires DbInv(db) && x in db.open && !db.open[x].updated
    ensures forall id :: id in db.open[x].Picked() ==> Due(View(db.rows, db.open[x], id), db.open[x].at)
  {
  }

  lemma ReclaimRowWrites(rows: Table, t: Tx, id: TaskId)
    requires t.picked == None && !t.updated && id in rows && id !in t.reclaimed && t.writes == WritesOf(rows, t)
    ensures
      var u := t.(reclaimed := t.reclaimed + {id}, writes := t.writes[id := Released(rows[id], LAPSED, t.at)]);
      u.writes == WritesOf(rows, u)
  {
  }

  lemma ReclaimRowKeeps(rows: Table, now: Time, t: Tx, id: TaskId)
    requires TxInv(rows, now, t) && t.picked == None && id in rows && id !in t.reclaimed
    requires Reclaimable(rows[id], t.worker, false, t.at)
    ensures TxInv(rows, now, t.(reclaimed := t.reclaimed + {id},
                                writes := t.writes[id := Released(rows[id], LAPSED, t.at)]))
  {
    ReclaimRowWrites(rows, t, id);
  }

  lemma PickWrites(rows: Table, t: Tx, ids: set<TaskId>)
    requires t.picked == None && !t.updated
    ensures WritesOf(rows, t.(picked := Some(ids))) == WritesOf(rows, t)
  {
  }

  lemma PickKeeps(rows: Table, now: Time, t: Tx, ids: set<TaskId>)
    requires TxInv(rows, now, t) && t.picked == None && ids <= rows.Keys
    requires |ids| <= (if t.limit > 0 then t.limit else 0)
    requires forall id :: id in ids ==> Due(View(rows, t, id), t.at)
    ensures TxInv(rows, now, t.(picked := Some(ids)))
  {
    PickWrites(rows, t, ids);
    ViewIsRow(rows, t);
  }

  // Before the update the transaction sees its own resets, and else the row as it is.
  lemma ViewIsRow(rows: Table, t: Tx)
    requires !t.updated && t.Locks() <= rows.Keys && t.writes == WritesOf(rows, t)
    ensures forall id :: id in rows && id !in t.reclaimed ==> View(rows, t, id) == rows[id]
    ensures forall id :: id in t.reclaimed ==> View(rows, t, id) == Released(rows[id], LAPSED, t.at)
  {
  }

  lemma UpdateWrites(rows: Table, t: Tx)
    requires t.picked.Some? && !t.updated && t.Locks() <= rows.Keys && t.writes == WritesOf(rows, t)
    ensures
      var u := t.(updated := true, writes := t.writes + UpdatedRows(rows, t));
      u.writes == WritesOf(rows, u)
  {
    ViewIsRow(rows, t);
  }

  lemma UpdateKeeps(rows: Table, now: Time, t: Tx)
    requires TxInv(rows, now, t) && t.picked.Some? && !t.updated
    ensures TxInv(rows, now, t.(updated := true, writes := t.writes + UpdatedRows(rows, t)))
  {
    UpdateWrites(rows, t);
  }

  // Steps that only move transaction x on.
  lemma MoveOn(db: Db, x: TxId, u: Tx)
    requires DbInv(db) && TxInv(db.rows, db.now, u)
    requires forall id, y :: id in u.Locks() && y in db.open && y != x ==> id !in db.open[y].Locks()
    ensures DbInv(db.(open := db.open[x := u]))
  {
  }

  // Steps that only change rows no open transaction has locked.
  lemma RowsMove(db: Db, after: Db)
    requires DbInv(db) && db.now <= after.now
    requires forall y :: y in after.open ==> y in db.open && after.open[y] == db.open[y]
    requires forall y, id :: y in after.open && id in db.open[y].Locks() ==>
      id in after.rows && after.rows[id] == db.rows[id]
    ensures DbInv(after)
  {
    forall y | y in after.open ensures TxInv(after.rows, after.now, after.open[y]) {
      TxKept(db, after, db.open[y]);
    }
  }

  lemma WritesAreLocked(rows: Table, now: Time, t: Tx)
    requires TxInv(rows, now, t)
    ensures t.writes.Keys <= t.Locks()
  {
  }

  lemma OthersUntouched(rows: Table, now: Time, t: Tx, id: TaskId)
    requires TxInv(rows, now, t) && id in rows && id !in t.Locks()
    ensures id in rows + t.writes && (rows + t.writes)[id] == rows[id]
  {
    WritesAreLocked(rows, now, t);
  }

  lemma CommitKeeps(db: Db, x: TxId)
    requires DbInv(db) && x in db.open
    ensures DbInv(Perform(Commit(x), db))
  {
    var after := Perform(Commit(x), db);
    forall y, id | y in after.open && id in db.open[y].Locks()
      ensures id in after.rows && after.rows[id] == db.rows[id]
    {
      OtherLocks(db, x, y, id);
      OthersUntouched(db.rows, db.now, db.open[x], id);
    }
    RowsMove(db, after);
  }

  lemma OtherLocks(db: Db, x: TxId, y: TxId, id: TaskId)
    requires DbInv(db) && x in db.open && y in db.open && x != y && id in db.open[y].Locks()
    ensures id in db.rows && id !in db.open[x].Locks()
  {
    assert TxInv(db.rows, db.now, db.open[y]);
  }

  lemma StatementKeeps(maxRetries: nat, db: Db, op: Op)
    requires DbInv(db) && Enabled(maxRetries, Statement(op), db)
    ensures DbInv(Perform(Statement(op), db))
  {
    forall y, id | y in db.open && id in db.open[y].Locks()
      ensures id in After(op, db.now, db.rows) && After(op, db.now, db.rows)[id] == db.rows[id]
    {
      assert TxInv(db.rows, db.now, db.open[y]);
    }
    RowsMove(db, Perform(Statement(op), db));
  }

  lemma BeginKeeps(maxRetries: nat, step: Step, db: Db)
    requires DbInv(db) && Enabled(maxRetries, step, db) && step.Begin?
    ensures DbInv(Perform(step, db))
  {
    var u := Tx(step.worker, step.limit, step.lease, db.now, {}, None, false, map[]);
    assert WritesOf(db.rows, u) == map[];
    MoveOn(db, step.tx, u);
  }

  lemma ReclaimRowStep(maxRetries: nat, db: Db, x: TxId, id: TaskId)
    requires DbInv(db) && Enabled(maxRetries, ReclaimRow(x, id), db)
    ensures DbInv(Perform(ReclaimRow(x, id), db))
  {
    ReclaimRowKeeps(db.rows, db.now, db.open[x], id);
    MoveOn(db, x, Perform(ReclaimRow(x, id), db).open[x]);
  }

  lemma PickStep(maxRetries: nat, db: Db, x: TxId, ids: set<TaskId>)
    requires DbInv(db) && Enabled(maxRetries, Pick(x, ids), db)
    ensures DbInv(Perform(Pick(x, ids), db))
  {
    PickKeeps(db.rows, db.now, db.open[x], ids);
    MoveOn(db, x, Perform(Pick(x, ids), db).open[x]);
  }

  lemma UpdateStep(maxRetries: nat, db: Db, x: TxId)
    requires DbInv(db) && Enabled(maxRetries, Update(x), db)
    ensures DbInv(Perform(Update(x), db))
  {
    UpdateKeeps(db.rows, db.now, db.open[x]);
    MoveOn(db, x, Perform(Update(x), db).open[x]);
  }

  lemma DbInvStep(maxRetries: nat, step: Step, db: Db)
    requires DbInv(db) && Enabled(maxRetries, step, db)
    ensures DbInv(Perform(step, db))
  {
    match step
    case Begin(_, _, _, _) => BeginKeeps(maxRetries, step, db);
    case ReclaimRow(x, id) => ReclaimRowStep(maxRetries, db, x, id);
    case Pick(x, ids) => PickStep(maxRetries, db, x, ids);
    case Update(x) => UpdateStep(maxRetries, db, x);
    case Commit(x) => CommitKeeps(db, x);
    case Rollback(x) => RowsMove(db, Perform(step, db));
    case Statement(op) => StatementKeeps(maxRetries, db, op);
  }

  // ----- Refinement of the atomic queue

  ghost predicate Shows(db: Db, s: State) {
    db.rows == s.rows && db.now == s.now && db.used == s.log.Keys
  }

  // The atomic statements a step amounts to: a commit is one reclaim and one
  // claim; the steps before it are invisible.
  function Atomic(step: Step, db: Db): seq<Op> {
    match step
    case Commit(x) => if x in db.open then [ReclaimOp(db.open[x]), ClaimOp(db.open[x])] else []
    case Statement(op) => [op]
    case _ => []
  }

  lemma CommittedRows(db: Db, t: Tx)
    requires TxInv(db.rows, db.now, t) && t.updated
    ensures
      var reclaimed := After(ReclaimOp(t), db.now, db.rows);
      && After(ClaimOp(t), db.now, reclaimed) == db.rows + t.writes
      && (forall id :: id in t.Picked() ==> Due(reclaimed[id], t.at))
  {
  }

  lemma CommitIsAtomic(maxRetries: nat, db: Db, x: TxId, s: State)
    requires DbInv(db) && Enabled(maxRetries, Commit(x), db) && Shows(db, s)
    ensures LegalRun(maxRetries, Atomic(Commit(x), db), s)
    ensures Shows(Perform(Commit(x), db), Run(Atomic(Commit(x), db), s))
  {
    var t := db.open[x];
    CommittedRows(db, t);
    assert Legal(maxRetries, ReclaimOp(t), s);
    assert Legal(maxRetries, ClaimOp(t), Apply(ReclaimOp(t), s));
    TwoOps(maxRetries, ReclaimOp(t), ClaimOp(t), s);
  }

  lemma TwoOps(maxRetries: nat, a: Op, b: Op, s: State)
    requires Legal(maxRetries, a, s) && Legal(maxRetries, b, Apply(a, s))
    ensures LegalRun(maxRetries, [a, b], s) && Run([a, b], s) == Apply(b, Apply(a, s))
  {
    assert [a, b][1..] == [b];
    assert [b][1..] == [];
    assert Run([b], Apply(a, s)) == Apply(b, Apply(a, s));
  }

  lemma StepRefines(maxRetries: nat, step: Step, db: Db, s: State)
    requires DbInv(db) && Enabled(maxRetries, step, db) && Shows(db, s)
    ensures LegalRun(maxRetries, Atomic(step, db), s)
    ensures Shows(Perform(step, db), Run(Atomic(step, db), s))
  {
    match step
    case Commit(x) => CommitIsAtomic(maxRetries, db, x, s);
    case Statement(op) =>
      assert Atomic(step, db)[1..] == [];
      assert Run(Atomic(step, db), s) == Apply(op, s);
    case _ =>
  }

  ghost predicate EnabledRun(maxRetries: nat, steps: seq<Step>, db: Db)
    decreases |steps|
  {
    steps != [] ==> Enabled(maxRetries, steps[0], db) && EnabledRun(maxRetries, steps[1..], Perform(steps[0], db))
  }

  function PerformAll(steps: seq<Step>, db: Db): Db
    decreases |steps|
  {
    if steps == [] then db else PerformAll(steps[1..], Perform(steps[0], db))
  }

  function AtomicAll(steps: seq<Step>, db: Db): seq<Op>
    decreases |steps|
  {
    if steps == [] then [] else Atomic(steps[0], db) + AtomicAll(steps[1..], Perform(steps[0], db))
  }

  // Every interleaving of transactions is a run of the atomic queue: the laws
  // of QueueLaws hold of the committed table.
  lemma {:induction false} TransactionsRefineAtomicClaims(maxRetries: nat, steps: seq<Step>, db: Db, s: State)
    requires DbInv(db) && EnabledRun(maxRetries, steps, db) && Shows(db, s)
    ensures DbInv(PerformAll(steps, db))
    ensures LegalRun(maxRetries, AtomicAll(steps, db), s)
    ensures Shows(PerformAll(steps, db), Run(AtomicAll(steps, db), s))
    decreases |steps|
  {
    if steps != [] {
      var next := Perform(steps[0], db);
      var first, rest := Atomic(steps[0], db), AtomicAll(steps[1..], next);
      StepRefines(maxRetries, steps[0], db, s);
      DbInvStep(maxRetries, steps[0], db);
      TransactionsRefineAtomicClaims(maxRetries, steps[1..], next, Run(first, s));
      RunConcat(maxRetries, first, rest, s);
    }
  }

  // From an empty database: locks of open transactions never overlap, and at
  // the status-less UPDATE every picked row is still pending and due.
  lemma {:induction false} PicksAreSafe(maxRetries: nat, steps: seq<Step>, start: Time, x: TxId, y: TxId)
    requires EnabledRun(maxRetries, steps, OpenDb(start))
    requires
      var db := PerformAll(steps, OpenDb(start));
      x in db.open && y in db.open && !db.open[x].updated
    ensures
      var db := PerformAll(steps, OpenDb(start));
      && (x != y ==> db.open[x].Locks() !! db.open[y].Locks())
      && db.open[x].Locks() <= db.rows.Keys
      && (forall id :: id in db.open[x].Picked() && id in db.rows ==> Due(View(db.rows, db.open[x], id), db.open[x].at))
      && Inv(maxRetries, Run(AtomicAll(steps, OpenDb(start)), Empty(start)))
  {
    TransactionsRefineAtomicClaims(maxRetries, steps, OpenDb(start), Empty(start));
    InvRun(maxRetries, AtomicAll(steps, OpenDb(start)), Empty(start));
    PickedStillMatch(PerformAll(steps, OpenDb(start)), x);
  }
}
