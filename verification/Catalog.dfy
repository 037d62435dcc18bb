// Recordings and tasks together. Creating a recording creates its task in the
// same transaction, and deleting it deletes the task; everything else touches
// one side only. Uploads and Protocol are joined, and what each assumes of the
// other's inserts and deletes is proved.
module Catalog {
  import opened Options
  import opened Tasks
  import opened Protocol
  import opened QueueLaws
  import U = Uploads

  datatype Catalog = Catalog(disk: U.State, queue: State)

  datatype Step =
    | Request(step: U.Step, task: TaskId)  // a commit draws the task's id
    | Queue(op: Op)

  // What the step sends to the tasks table.
  function Statement(step: Step, c: Catalog): Option<Op> {
    match step
    case Queue(op) => Some(op)
    case Request(CommitRow(u), task) =>
      if u in c.disk.uploads && c.disk.uploads[u].phase.Inserted? then
        Some(Create(task, c.disk.uploads[u].phase.recording))
      else None
    case Request(DeleteCommit(d), _) =>
      if d in c.disk.deletions && c.disk.deletions[d].Read? then Some(Delete(c.disk.deletions[d].recording)) else None
    case _ => None
  }

  function DiskAfter(step: Step, c: Catalog): U.State {
    if step.Request? then U.Perform(step.step, c.disk) else c.disk
  }

  function QueueAfter(step: Step, c: Catalog): State {
    var op := Statement(step, c);
    if op.Some? then Apply(op.value, c.queue) else c.queue
  }

  function Perform(step: Step, c: Catalog): Catalog {
    Catalog(DiskAfter(step, c), QueueAfter(step, c))
  }

  // Of creation only that the task's id is fresh; of deletion nothing.
  ghost predicate Enabled(maxRetries: nat, step: Step, c: Catalog) {
    match step
    case Request(s, task) => U.Enabled(s, c.disk) && (s.CommitRow? ==> task !in c.queue.log)
    case Queue(op) => !op.Create? && !op.Delete? && Legal(maxRetries, op, c.queue)
  }

  predicate HasTask(queue: State, r: RecordingId) {
    exists id :: id in queue.rows && queue.rows[id].recording == r
  }

  ghost predicate Paired(c: Catalog) {
    && (forall r :: r in c.disk.recordings ==> HasTask(c.queue, r))
    && (forall id :: id in c.queue.rows ==> c.queue.rows[id].recording in c.disk.recordings)
  }

  ghost predicate CatalogInv(maxRetries: nat, c: Catalog) {
    U.Inv(c.disk) && Inv(maxRetries, c.queue) && Paired(c)
  }

  // The unique recording_id needs no checking: the row is as new as its recording.
  lemma StatementIsLegal(maxRetries: nat, step: Step, c: Catalog)
    requires CatalogInv(maxRetries, c) && Enabled(maxRetries, step, c) && Statement(step, c).Some?
    ensures Legal(maxRetries, Statement(step, c).value, c.queue)
  {
    if step.Request? && step.step.CommitRow? {
      assert U.UploadInv(c.disk, step.step.u);
    }
  }

  lemma RecordingsAfter(step: U.Step, s: U.State)
    requires U.Enabled(step, s)
    ensures
      U.Perform(step, s).recordings ==
      match step
      case CommitRow(u) => s.recordings[s.uploads[u].phase.recording := U.Recording(s.uploads[u].path, s.uploads[u].hash)]
      case DeleteCommit(d) => s.recordings - {s.deletions[d].recording}
      case _ => s.recordings
  {
  }

  lemma TaskStays(op: Op, s: State, r: RecordingId)
    requires HasTask(s, r) && op != Delete(r) && (op.Create? ==> op.id !in s.rows)
    ensures HasTask(Apply(op, s), r)
  {
    var id :| id in s.rows && s.rows[id].recording == r;
    AppliedRow(op, s, id);
    assert id in Apply(op, s).rows && Apply(op, s).rows[id].recording == r;
  }

  lemma TaskCame(op: Op, s: State, r: RecordingId)
    requires HasTask(Apply(op, s), r)
    ensures op != Delete(r) && ((op.Create? && op.recording == r) || HasTask(s, r))
  {
    var id :| id in Apply(op, s).rows && Apply(op, s).rows[id].recording == r;
    RecordingKept(op, s, id);
    if !(op.Create? && op.id == id) {
      assert id in s.rows && s.rows[id].recording == r;
    }
  }

  // Which recordings the tasks are of, after a statement.
  lemma TasksAfter(maxRetries: nat, op: Op, s: State, r: RecordingId)
    requires Inv(maxRetries, s) && Legal(maxRetries, op, s)
    ensures
      HasTask(Apply(op, s), r) <==>
      match op
      case Create(_, recording) => r == recording || HasTask(s, r)
      case Delete(recording) => r != recording && HasTask(s, r)
      case _ => HasTask(s, r)
  {
    if HasTask(s, r) && op != Delete(r) {
      TaskStays(op, s, r);
    }
    if HasTask(Apply(op, s), r) {
      TaskCame(op, s, r);
    }
    if op.Create? {
      assert op.id in Apply(op, s).rows && Apply(op, s).rows[op.id].recording == op.recording;
    }
  }

  ghost predicate PairedAt(c: Catalog, r: RecordingId) {
    r in c.disk.recordings <==> HasTask(c.queue, r)
  }

  lemma PairedEverywhere(c: Catalog)
    ensures Paired(c) <==> forall r :: PairedAt(c, r)
  {
    if forall r :: PairedAt(c, r) {
      forall id | id in c.queue.rows ensures c.queue.rows[id].recording in c.disk.recordings {
        assert PairedAt(c, c.queue.rows[id].recording);
      }
      forall r | r in c.disk.recordings ensures HasTask(c.queue, r) {
        assert PairedAt(c, r);
      }
    }
  }

  lemma PairedAfter(maxRetries: nat, step: Step, c: Catalog, r: RecordingId)
    requires CatalogInv(maxRetries, c) && Enabled(maxRetries, step, c)
    ensures PairedAt(Perform(step, c), r)
  {
    PairedEverywhere(c);
    assert PairedAt(c, r);
    if step.Request? {
      RecordingsAfter(step.step, c.disk);
    }
    if Statement(step, c).Some? {
      StatementIsLegal(maxRetries, step, c);
      TasksAfter(maxRetries, Statement(step, c).value, c.queue, r);
    }
  }

  lemma CatalogStep(maxRetries: nat, step: Step, c: Catalog)
    requires CatalogInv(maxRetries, c) && Enabled(maxRetries, step, c)
    ensures CatalogInv(maxRetries, Perform(step, c))
    ensures Statement(step, c).Some? ==> Legal(maxRetries, Statement(step, c).value, c.queue)
  {
    if Statement(step, c).Some? {
      StatementIsLegal(maxRetries, step, c);
      InvStep(maxRetries, Statement(step, c).value, c.queue);
    }
    if step.Request? {
      U.InvStep(step.step, c.disk);
    }
    forall r ensures PairedAt(Perform(step, c), r) {
      PairedAfter(maxRetries, step, c, r);
    }
    PairedEverywhere(Perform(step, c));
  }

  // ----- Whole runs

  ghost predicate EnabledRun(maxRetries: nat, steps: seq<Step>, c: Catalog)
    decreases |steps|
  {
    steps != [] ==>
      Enabled(maxRetries, steps[0], c) && EnabledRun(maxRetries, steps[1..], Perform(steps[0], c))
  }

  function PerformAll(steps: seq<Step>, c: Catalog): Catalog
    decreases |steps|
  {
    if steps == [] then c else PerformAll(steps[1..], Perform(steps[0], c))
  }

  function Requests(steps: seq<Step>): seq<U.Step> {
    if steps == [] then []
    else (if steps[0].Request? then [steps[0].step] else []) + Requests(steps[1..])
  }

  function Statements(steps: seq<Step>, c: Catalog): seq<Op>
    decreases |steps|
  {
    if steps == [] then []
    else
      var op := Statement(steps[0], c);
      (if op.Some? then [op.value] else []) + Statements(steps[1..], Perform(steps[0], c))
  }

  // Seen from either side, a run of both is a run of that side, so the laws of
  // the queue and the agreement of disk and table hold together.
  lemma {:induction false} CatalogRun(maxRetries: nat, steps: seq<Step>, c: Catalog)
    requires CatalogInv(maxRetries, c) && EnabledRun(maxRetries, steps, c)
    ensures CatalogInv(maxRetries, PerformAll(steps, c))
    ensures U.EnabledRun(Requests(steps), c.disk) && U.PerformAll(Requests(steps), c.disk) == PerformAll(steps, c).disk
    ensures LegalRun(maxRetries, Statements(steps, c), c.queue)
    ensures Run(Statements(steps, c), c.queue) == PerformAll(steps, c).queue
    decreases |steps|
  {
    if steps != [] {
      var next := Perform(steps[0], c);
      CatalogStep(maxRetries, steps[0], c);
      CatalogRun(maxRetries, steps[1..], next);
      QueueSide(maxRetries, Statement(steps[0], c), Statements(steps[1..], next), c.queue);
      DiskSide(steps[0], Requests(steps[1..]), c);
    }
  }

  lemma QueueSide(maxRetries: nat, op: Option<Op>, rest: seq<Op>, s: State)
    requires op.Some? ==> Legal(maxRetries, op.value, s)
    requires LegalRun(maxRetries, rest, if op.Some? then Apply(op.value, s) else s)
    ensures
      var ops := (if op.Some? then [op.value] else []) + rest;
      LegalRun(maxRetries, ops, s) && Run(ops, s) == Run(rest, if op.Some? then Apply(op.value, s) else s)
  {
    if op.Some? {
      assert ([op.value] + rest)[1..] == rest;
    } else {
      assert [] + rest == rest;
    }
  }

  lemma DiskSide(step: Step, rest: seq<U.Step>, c: Catalog)
    requires step.Request? ==> U.Enabled(step.step, c.disk)
    requires U.EnabledRun(rest, DiskAfter(step, c))
    ensures
      var steps := (if step.Request? then [step.step] else []) + rest;
      U.EnabledRun(steps, c.disk) && U.PerformAll(steps, c.disk) == U.PerformAll(rest, DiskAfter(step, c))
  {
    if step.Request? {
      assert ([step.step] + rest)[1..] == rest;
    } else {
      assert [] + rest == rest;
    }
  }

  function Nothing(start: Time): Catalog {
    Catalog(U.EMPTY, Empty(start))
  }

  // In every reachable state each recording has exactly one task, and each task
  // has its recording.
  lemma {:induction false} OneTaskPerRecording(
    maxRetries: nat, steps: seq<Step>, start: Time, r: RecordingId, a: TaskId, b: TaskId)
    requires EnabledRun(maxRetries, steps, Nothing(start))
    ensures
      var c := PerformAll(steps, Nothing(start));
      && (r in c.disk.recordings <==> exists id :: id in c.queue.rows && c.queue.rows[id].recording == r)
      && (a in c.queue.rows && b in c.queue.rows && c.queue.rows[a].recording == c.queue.rows[b].recording ==> a == b)
  {
    CatalogRun(maxRetries, steps, Nothing(start));
    PairedEverywhere(PerformAll(steps, Nothing(start)));
    assert PairedAt(PerformAll(steps, Nothing(start)), r);
  }

  lemma {:induction false} CreatorStays(maxRetries: nat, steps: seq<Step>, c: Catalog, r: RecordingId, path: U.Path)
    requires EnabledRun(maxRetries, steps, c) && U.CreatedBy(c.disk, r, path)
    ensures U.CreatedBy(PerformAll(steps, c).disk, r, path)
    decreases |steps|
  {
    if steps != [] {
      if steps[0].Request? {
        U.CreatedStays(steps[0].step, c.disk);
      }
      CreatorStays(maxRetries, steps[1..], Perform(steps[0], c), r, path);
    }
  }

  // A reader that found the recording and then looks for its task misses it if
  // and only if a deletion of the recording has committed in between.
  lemma TaskMissingIff(maxRetries: nat, c: Catalog, steps: seq<Step>, r: RecordingId)
    requires CatalogInv(maxRetries, c) && EnabledRun(maxRetries, steps, c) && r in c.disk.recordings
    ensures
      var t := PerformAll(steps, c);
      !HasTask(t.queue, r) <==> U.Deleted(t.disk, r, c.disk.recordings[r].path)
  {
    var t, path := PerformAll(steps, c), c.disk.recordings[r].path;
    CatalogRun(maxRetries, steps, c);
    assert U.RecordingInv(c.disk, r);
    CreatorStays(maxRetries, steps, c, r, path);
    assert U.UploadInv(t.disk, t.disk.inserter[r]);
    PairedEverywhere(t);
    assert PairedAt(t, r);
    if U.Deleted(t.disk, r, path) {
      U.RecordedIsNotDeleted(t.disk, r, path);
    }
  }
}
