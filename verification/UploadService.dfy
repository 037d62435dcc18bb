// One upload and one deletion as the service carries them out on the disk and
// the table, refining Uploads: whatever other requests do between their steps,
// what they do is a run of that state machine, and the answer tells what they
// left behind.
module UploadService {
  import opened Options
  import opened Uploads
  import Retry

  // ----- Other requests

  datatype Party = Uploader(u: UploadId) | Deleter(d: DeletionId)

  function Actor(step: Step): Party {
    match step
    case DeleteRead(d, _) => Deleter(d)
    case DeleteCommit(d) => Deleter(d)
    case FailDelete(d) => Deleter(d)
    case CutDelete(d) => Deleter(d)
    case DeleteRemove(d) => Deleter(d)
    case _ => Uploader(step.u)
  }

  predicate AllForeign(steps: seq<Step>, me: Party) {
    forall i :: 0 <= i < |steps| ==> Actor(steps[i]) != me
  }

  ghost predicate Untouched(s: State, t: State, me: Party) {
    match me
    case Uploader(u) => u in s.uploads ==> u in t.uploads && t.uploads[u] == s.uploads[u]
    case Deleter(d) =>
      (d in s.deletions <==> d in t.deletions) && (d in s.deletions ==> t.deletions[d] == s.deletions[d])
  }

  // The recording was committed, and a deletion of it has committed since.
  ghost predicate RowGone(s: State, r: RecordingId) {
    && r in s.inserter && s.inserter[r] in s.uploads
    && Owned(s.uploads[s.inserter[r]].phase) == Some(r)
    && Deleted(s, r, s.uploads[s.inserter[r]].path)
  }

  // What no step undoes.
  ghost predicate Lasts(s: State, t: State) {
    && (forall r, h :: CreatedFor(s, r, h) ==> CreatedFor(t, r, h))
    && (forall r, p :: CreatedBy(s, r, p) ==> CreatedBy(t, r, p))
    && (forall r :: RowGone(s, r) ==> RowGone(t, r))
  }

  ghost predicate Meanwhile(s: State, t: State, me: Party) {
    Untouched(s, t, me) && Lasts(s, t)
  }

  lemma StepLasts(step: Step, s: State)
    requires Enabled(step, s)
    ensures Lasts(s, Perform(step, s))
  {
    CreatedStays(step, s);
    DeletedStays(step, s);
    forall r | RowGone(s, r) ensures RowGone(Perform(step, s), r) {
      assert CreatedBy(s, r, s.uploads[s.inserter[r]].path);
    }
  }

  lemma StepUntouched(step: Step, s: State, me: Party)
    requires Enabled(step, s) && Actor(step) != me
    ensures Untouched(s, Perform(step, s), me)
  {
  }

  lemma {:induction false} RunMeanwhile(steps: seq<Step>, s: State, me: Party)
    requires EnabledRun(steps, s) && AllForeign(steps, me)
    ensures Meanwhile(s, PerformAll(steps, s), me)
    decreases |steps|
  {
    if steps != [] {
      assert Actor(steps[0]) != me;
      StepUntouched(steps[0], s, me);
      StepLasts(steps[0], s);
      RunMeanwhile(steps[1..], Perform(steps[0], s), me);
    }
  }

  // Whoever holds up an insert may end its transaction.
  lemma IndexFrees(s: State, u: UploadId, hash: Hash) returns (steps: seq<Step>)
    requires Inv(s) && In(s, u, Absent)
    ensures EnabledRun(steps, s) && AllForeign(steps, Uploader(u))
    ensures Known(PerformAll(steps, s), hash) || !IndexEntryHeld(PerformAll(steps, s), hash)
  {
    if IndexEntryHeld(s, hash) {
      var v :| v in s.uploads && s.uploads[v].phase.Inserted? && s.uploads[v].hash == hash;
      steps := [Break(v)];
      assert steps[1..] == [];
      BreakFrees(s, v, hash);
    } else {
      steps := [];
    }
  }

  lemma BreakFrees(s: State, v: UploadId, hash: Hash)
    requires Inv(s) && v in s.uploads && s.uploads[v].phase.Inserted? && s.uploads[v].hash == hash
    ensures !IndexEntryHeld(Perform(Break(v), s), hash)
  {
    forall w | w in s.uploads && w != v ensures !Rivals(s.uploads[v], s.uploads[w]) {
    }
  }

  // A recording once found is there until it is deleted.
  lemma FoundOrGone(s: State, r: RecordingId, hash: Hash)
    requires Inv(s) && CreatedFor(s, r, hash)
    ensures r !in s.recordings ==> RowGone(s, r)
  {
    GoneIsDeleted(s, r, s.uploads[s.inserter[r]].path);
  }

  // A hash that is recorded was recorded for an upload of that content.
  lemma FoundWasCreated(s: State, r: RecordingId)
    requires Inv(s) && r in s.recordings
    ensures CreatedFor(s, r, s.recordings[r].hash)
  {
    assert RecordingInv(s, r) && UploadInv(s, s.inserter[r]);
  }

  lemma UploadSettled(s: State, u: UploadId)
    requires Inv(s) && u in s.uploads
    ensures UploadInv(s, u)
    ensures Owned(s.uploads[u].phase) == None ==> s.uploads[u].path !in Recorded(s)
  {
    forall r | r in s.recordings && s.recordings[r].path == s.uploads[u].path
      ensures Owned(s.uploads[u].phase) == Some(r)
    {
      assert RecordingInv(s, r);
      OwnPath(s, u, s.inserter[r]);
    }
  }

  lemma StagedGone(step: Step, s: State, u: UploadId)
    requires Inv(s) && Enabled(step, s) && (step == Discard(u) || step == FailPlace(u))
    ensures
      var t, up := Perform(step, s), s.uploads[u];
      && t.files == s.files && t.parts == s.parts - {up.path} && t.recordings == s.recordings
      && up.path !in s.files
      && u in t.uploads && t.uploads[u] == up.(phase := Over(if step.Discard? then Existing else Failed))
  {
    assert UploadInv(s, u);
  }

  lemma PlacedNow(s: State, u: UploadId)
    requires Inv(s) && Enabled(Place(u), s)
    ensures
      var t, up := Perform(Place(u), s), s.uploads[u];
      && up.path in s.parts
      && t.files == s.files + {up.path} && t.parts == s.parts - {up.path} && t.recordings == s.recordings
      && u in t.uploads && t.uploads[u] == up.(phase := Placed)
  {
    assert UploadInv(s, u);
  }

  // What the unique index buys: an insert either clashes with a recording made
  // from the same content, or goes ahead with no other insert of it open.
  lemma InsertRace(s: State, u: UploadId, r: RecordingId)
    requires Inv(s) && Enabled(Insert(u, r), s)
    ensures
      var t, hash := Perform(Insert(u, r), s), s.uploads[u].hash;
      && u in t.uploads
      && (In(t, u, Clashed) <==> Known(s, hash))
      && (In(t, u, Clashed) ==> exists q :: q in t.recordings && q != r && CreatedFor(t, q, hash))
      && (!In(t, u, Clashed) ==>
            && In(t, u, Inserted(r))
            && forall v :: v in t.uploads && v != u && t.uploads[v].hash == hash ==> !t.uploads[v].phase.Inserted?)
  {
    var t, hash := Perform(Insert(u, r), s), s.uploads[u].hash;
    if Known(s, hash) {
      var q :| q in s.recordings && s.recordings[q].hash == hash;
      FoundWasCreated(s, q);
      CreatedStays(Insert(u, r), s);
      assert q in t.recordings && CreatedFor(t, q, hash);
    }
  }

  lemma Flushed(s: State, u: UploadId, r: RecordingId)
    requires Enabled(Insert(u, r), s)
    ensures
      var t, up := Perform(Insert(u, r), s), s.uploads[u];
      && t.files == s.files && t.parts == s.parts && t.recordings == s.recordings
      && u in t.uploads && t.uploads[u] == up.(phase := if Known(s, up.hash) then Clashed else Inserted(r))
  {
  }

  lemma Committed(s: State, u: UploadId)
    requires Enabled(CommitRow(u), s)
    ensures
      var t, up := Perform(CommitRow(u), s), s.uploads[u];
      && t.files == s.files && t.parts == s.parts
      && t.recordings == s.recordings[up.phase.recording := Recording(up.path, up.hash)]
      && u in t.uploads && t.uploads[u] == up.(phase := Closing(Created(up.phase.recording)))
  {
  }

  lemma {:induction false} FreshId(taken: set<RecordingId>) returns (r: RecordingId)
    ensures r !in taken && forall q :: q in taken ==> q < r
    decreases |taken|
  {
    if taken == {} {
      r := 0;
    } else {
      var q :| q in taken;
      assert |taken - {q}| < |taken|;
      var above := FreshId(taken - {q});
      r := if q < above then above else q + 1;
      assert forall p :: p in taken ==> p == q || p in taken - {q};
    }
  }

  class Disk {
    var files: set<Path>
    var parts: set<Path>

    constructor (files: set<Path>, parts: set<Path>)
      ensures this.files == files && this.parts == parts
    {
      this.files, this.parts := files, parts;
    }

    method Replace(path: Path)
      requires path in parts
      modifies this
      ensures files == old(files) + {path} && parts == old(parts) - {path}
    {
      parts := parts - {path};
      files := files + {path};
    }

    method RemovePart(path: Path)
      modifies this`parts
      ensures parts == old(parts) - {path}
    {
      parts := parts - {path};
    }

    method RemoveFile(path: Path)
      modifies this`files
      ensures files == old(files) - {path}
    {
      files := files - {path};
    }
  }

  class RecordingTable {
    var rows: map<RecordingId, Recording>

    constructor (rows: map<RecordingId, Recording>)
      ensures this.rows == rows
    {
      this.rows := rows;
    }

    method GetByHash(hash: Hash) returns (found: Option<RecordingId>)
      ensures found.Some? <==> exists r :: r in rows && rows[r].hash == hash
      ensures found.Some? ==> found.value in rows && rows[found.value].hash == hash
    {
      if exists r :: r in rows && rows[r].hash == hash {
        var r :| r in rows && rows[r].hash == hash;
        found := Some(r);
      } else {
        found := None;
      }
    }
  }

  // `TaskMissing` when the two reads that found the recording straddle its deletion.
  datatype UploadError = Interrupted | TaskMissing | WorkerNotStarted

  // Where an upload raises or is cut off, if it gets there.
  datatype Faults = Faults(
    lookup: bool,  // in the first lookup
    rename: bool,
    begin: bool,   // before the transaction looks again
    insert: bool,  // while the insert waits
    commit: bool,  // before the commit
    clash: bool,   // after the unique index refused the row
    close: bool)   // while the session closes
  {
    predicate None() { !lookup && !rename && !begin && !insert && !commit && !clash && !close }
  }

  datatype DeleteFaults = DeleteFaults(commit: bool, close: bool)

  datatype DeleteOutcome = Gone(path: Path) | NotFound | NotDeleted | CutOff(path: Path)

  // The API's handle on the worker.
  class WorkerHandle {
    const link: Retry.WorkerLink
    ghost var submitted: nat  // wake-ups delivered

    constructor (link: Retry.WorkerLink)
      ensures this.link == link && submitted == 0
    {
      this.link, submitted := link, 0;
    }

    method Submit() returns (ok: bool)
      modifies this
      ensures ok <==> link != Retry.Stopped
      ensures submitted == old(submitted) + (if link == Retry.Running then 1 else 0)
    {
      ok := link != Retry.Stopped;
      if link == Retry.Running {
        submitted := submitted + 1;
      }
    }
  }

  class RecordingService {
    const disk: Disk
    const table: RecordingTable
    const worker: WorkerHandle
    var world: State           // every request; its files and rows are the real ones
    ghost var origin: State
    ghost var run: seq<Step>   // what happened since
    ghost var watched: Hash    // the content being uploaded
    ghost var met: bool        // it was recorded at some moment since

    constructor (disk: Disk, table: RecordingTable, worker: WorkerHandle, world: State)
      requires Inv(world) && disk.files == world.files && disk.parts == world.parts && table.rows == world.recordings
      ensures this.disk == disk && this.table == table && this.worker == worker
      ensures this.world == world && run == [] && Valid()
    {
      this.disk, this.table, this.worker, this.world := disk, table, worker, world;
      origin, run := world, [];
      watched, met := 0, Known(world, 0);
    }

    // The world is what a run of Uploads makes of the origin.
    ghost predicate Refines()
      reads this
    {
      && Inv(world) && EnabledRun(run, origin) && PerformAll(run, origin) == world
      && (met <==> KnownDuring(run, origin, watched))
    }

    ghost predicate Shows(s: State)
      reads this, disk, table
    {
      disk.files == s.files && disk.parts == s.parts && table.rows == s.recordings
    }

    ghost predicate Valid()
      reads this, disk, table
    {
      Refines() && Shows(world)
    }

    ghost predicate At(u: UploadId, path: Path, hash: Hash, phase: Phase)
      reads this, disk, table
    {
      && Valid() && watched == hash && u in world.uploads
      && world.uploads[u].path == path && world.uploads[u].hash == hash && world.uploads[u].phase == phase
    }

    // What became of a committed row and its file: there, unless deleted.
    ghost predicate Settled(path: Path, hash: Hash, r: RecordingId)
      reads this, disk, table
    {
      && CreatedFor(world, r, hash)
      && if r in table.rows then table.rows[r] == Recording(path, hash)
         else Uploads.Deleted(world, r, path)
    }

    // What an upload's end says of the disk and the table.
    ghost predicate Told(u: UploadId, path: Path, hash: Hash, recording: Option<RecordingId>, created: bool, outcome: Outcome)
      reads this, disk, table
    {
      && At(u, path, hash, Over(outcome))
      && (created <==> outcome.Created?)
      && (path in disk.parts <==> outcome == LookupFailed)
      && (RowOf(outcome) == None ==> path !in Uploads.Recorded(world))
      && match outcome
         case Created(r) =>
           && recording == Some(r) && Settled(path, hash, r)
           && (path in disk.files <==> !Erased(world, r, path))
         case Existing => path !in disk.files && recording.Some? && CreatedFor(world, recording.value, hash)
         case Unanswered(r) => path !in disk.files && recording == None && Settled(path, hash, r)
         case _ => path !in disk.files && recording == None
    }

    // What the transaction's end says of the table.
    ghost predicate Recorded(u: UploadId, path: Path, hash: Hash, recording: Option<RecordingId>, created: bool, outcome: Outcome)
      reads this, disk, table
    {
      && At(u, path, hash, if created then Over(outcome) else Losing(outcome))
      && (recording.Some? ==> CreatedFor(world, recording.value, hash))
      && if created then recording.Some? && outcome == Created(recording.value)
         else if recording.Some? then outcome == Existing
         else outcome == Failed || outcome.Unanswered?
    }

    // A rival committed this content, the unique index refused the row, and the
    // rival's was deleted before it could be looked up.
    ghost predicate Beaten(hash: Hash)
      reads this
    {
      exists q :: CreatedFor(world, q, hash) && RowGone(world, q)
    }

    // What an upload ends otherwise than "created" for: a fault, or the content
    // having been recorded at some moment since it began.
    ghost predicate Explained(hash: Hash, faults: Faults, hasTask: bool, recording: Option<RecordingId>, outcome: Outcome)
      reads this
    {
      && (!hasTask && recording.Some? ==> RowGone(world, recording.value))
      && match outcome
         case Created(_) => hasTask
         case Existing => met
         case LookupFailed => faults.lookup
         case Unanswered(_) => faults.close
         case Failed => !faults.None() || (met && Beaten(hash))
    }

    method Others(me: Party)
      requires Valid()
      modifies this`world, this`run, this`met, disk, table
      ensures Valid() && Meanwhile(old(world), world, me) && (old(met) ==> met)
    {
      assert EnabledRun([], world);
      var steps: seq<Step> :| EnabledRun(steps, world) && AllForeign(steps, me);
      Elapse(steps, me);
    }

    method Elapse(steps: seq<Step>, me: Party)
      requires Valid() && EnabledRun(steps, world) && AllForeign(steps, me)
      modifies this`world, this`run, this`met, disk, table
      ensures Valid() && Meanwhile(old(world), world, me) && (old(met) ==> met)
      ensures world == PerformAll(steps, old(world))
    {
      RunMeanwhile(steps, world, me);
      InvRun(steps, world);
      RunConcat(run, steps, origin);
      KnownConcat(run, steps, origin, watched);
      met := met || KnownDuring(steps, world, watched);
      world := PerformAll(steps, world);
      run := run + steps;
      disk.files, disk.parts, table.rows := world.files, world.parts, world.recordings;
    }

    // The request's own step, once it has changed disk or table.
    method Move(step: Step)
      requires Refines() && Enabled(step, world) && Shows(Perform(step, world))
      modifies this`world, this`run, this`met
      ensures Valid() && world == Perform(step, old(world)) && (old(met) ==> met)
    {
      InvStep(step, world);
      assert [step][1..] == [];
      RunConcat(run, [step], origin);
      KnownConcat(run, [step], origin, watched);
      met := met || KnownDuring([step], world, watched);
      world := Perform(step, world);
      run := run + [step];
    }

    // A step that touches neither disk nor table.
    method Pass(step: Step, u: UploadId, path: Path, hash: Hash)
      requires Rephasing(step) && step.u == u && Enabled(step, world)
      requires u in world.uploads && At(u, path, hash, world.uploads[u].phase)
      modifies this`world, this`run, this`met
      ensures At(u, path, hash, NextPhase(step, old(world.uploads[u].phase), Known(old(world), hash)))
      ensures Lasts(old(world), world) && (old(met) ==> met)
    {
      StepLasts(step, world);
      Move(step);
    }

    // An exception or a cancellation inside the transaction.
    method BreakOff(u: UploadId, path: Path, hash: Hash, ghost outcome: Outcome)
      requires u in world.uploads && At(u, path, hash, world.uploads[u].phase) && Enabled(Break(u), world)
      requires outcome == (var r := Owned(world.uploads[u].phase); if r.Some? then Unanswered(r.value) else Failed)
      modifies this`world, this`run, this`met
      ensures At(u, path, hash, Losing(outcome)) && Lasts(old(world), world) && (old(met) ==> met)
    {
      Pass(Break(u), u, path, hash);
    }

    // What is recorded now was recorded at some moment.
    lemma NowIsAMoment()
      requires Refines()
      ensures Known(world, watched) ==> met
    {
      KnownInTheEnd(run, origin, watched);
    }

    // The recording by this hash, and its task, read one after the other. By
    // Catalog.OneTaskPerRecording the task is there while the recording is.
    method FindByHash(u: UploadId, path: Path, hash: Hash) returns (recording: Option<RecordingId>)
      requires u in world.uploads && At(u, path, hash, world.uploads[u].phase)
      ensures recording.Some? <==> Known(world, hash)
      ensures recording.Some? ==> CreatedFor(world, recording.value, hash) && met
    {
      recording := table.GetByHash(hash);
      NowIsAMoment();
      if recording.Some? {
        FoundWasCreated(world, recording.value);
      }
    }

    method FindTask(u: UploadId, path: Path, hash: Hash, recording: RecordingId) returns (hasTask: bool)
      requires u in world.uploads && At(u, path, hash, world.uploads[u].phase) && CreatedFor(world, recording, hash)
      modifies this`world, this`run, this`met, disk, table
      ensures At(u, path, hash, old(world.uploads[u].phase)) && Lasts(old(world), world) && (old(met) ==> met)
      ensures !hasTask ==> RowGone(world, recording)
    {
      Others(Uploader(u));
      hasTask := recording in table.rows;
      FoundOrGone(world, recording, hash);
    }

    // However other requests interleave: told "created", its row and file are
    // there, unless deleted since; told "existing", it left nothing, and the
    // recording named was made from the same content. An exception means that it
    // left nothing, but for: the part file, if the first lookup failed; the row,
    // if it was cut off after its commit; row and file, if the worker could not
    // be woken. The worker is woken for every row announced. Without a fault the
    // content is recorded by this upload, unless it was recorded at some moment
    // since the upload began.
    method Upload(u: UploadId, path: Path, hash: Hash, faults: Faults)
      returns (answer: Result<(RecordingId, bool), UploadError>,
               ghost recording: Option<RecordingId>, ghost hasTask: bool, ghost outcome: Outcome)
      requires u in world.uploads && Valid() && run == [] && origin == world
      requires world.uploads[u] == Uploads.Upload(path, hash, Staged)
      modifies this`world, this`run, this`met, this`watched, worker, disk, table
      ensures origin == old(world) && Told(u, path, hash, recording, outcome.Created?, outcome)
      ensures Explained(hash, faults, hasTask, recording, outcome)
      ensures faults.None() && !met ==> outcome.Created?
      ensures match outcome
        case Created(r) => answer == if worker.link == Retry.Stopped then Err(WorkerNotStarted) else Ok((r, true))
        case Existing => answer == if hasTask then Ok((recording.value, false)) else Err(TaskMissing)
        case _ => answer == Err(Interrupted)
      ensures worker.submitted == old(worker.submitted) + (if outcome.Created? && worker.link == Retry.Running then 1 else 0)
    {
      Watch(u, path, hash);
      var found, task, created;
      found, task, created, outcome := Store(u, path, hash, faults);
      recording, hasTask := found, task;
      answer := Announce(found, task, created);
    }

    ghost method Watch(u: UploadId, path: Path, hash: Hash)
      requires u in world.uploads && Valid() && run == [] && origin == world
      requires world.uploads[u] == Uploads.Upload(path, hash, Staged)
      modifies this`met, this`watched
      ensures At(u, path, hash, Staged)
    {
      watched, met := hash, Known(world, hash);
    }

    method Announce(recording: Option<RecordingId>, hasTask: bool, created: bool)
      returns (answer: Result<(RecordingId, bool), UploadError>)
      modifies worker
      ensures worker.submitted == old(worker.submitted) + (if recording.Some? && created && worker.link == Retry.Running then 1 else 0)
      ensures answer ==
        if recording == None then Err(Interrupted)
        else if created then (if worker.link == Retry.Stopped then Err(WorkerNotStarted) else Ok((recording.value, true)))
        else if hasTask then Ok((recording.value, false))
        else Err(TaskMissing)
    {
      if recording == None {
        return Err(Interrupted);
      }
      if !created {
        return if hasTask then Ok((recording.value, false)) else Err(TaskMissing);
      }
      var ok := worker.Submit();
      answer := if ok then Ok((recording.value, true)) else Err(WorkerNotStarted);
    }

    // Everything up to the answer.
    method Store(u: UploadId, path: Path, hash: Hash, faults: Faults)
      returns (recording: Option<RecordingId>, hasTask: bool, created: bool, ghost outcome: Outcome)
      requires At(u, path, hash, Staged)
      modifies this`world, this`run, this`met, disk, table
      ensures Told(u, path, hash, recording, created, outcome)
      ensures Explained(hash, faults, hasTask, recording, outcome)
    {
      Others(Uploader(u));
      if faults.lookup {
        GiveUpLookup(u, path, hash);
        return None, true, false, LookupFailed;
      }
      recording := FindByHash(u, path, hash);
      Pass(Lookup(u), u, path, hash);
      if recording.Some? {
        hasTask := HitFound(u, path, hash, recording.value, faults);
        created, outcome := false, Existing;
      } else {
        recording, hasTask, created, outcome := PlaceAndRecord(u, path, hash, faults);
      }
    }

    method GiveUpLookup(u: UploadId, path: Path, hash: Hash)
      requires At(u, path, hash, Staged)
      modifies this`world, this`run, this`met
      ensures Told(u, path, hash, None, false, LookupFailed)
    {
      Pass(FailLookup(u), u, path, hash);
      UploadSettled(world, u);
    }

    method HitFound(u: UploadId, path: Path, hash: Hash, found: RecordingId, faults: Faults) returns (hasTask: bool)
      requires At(u, path, hash, Hit) && CreatedFor(world, found, hash) && met
      modifies this`world, this`run, this`met, disk, table
      ensures Told(u, path, hash, Some(found), false, Existing)
      ensures Explained(hash, faults, hasTask, Some(found), Existing)
    {
      hasTask := FindTask(u, path, hash, found);
      DiscardStaged(u, path, hash);
      UploadSettled(world, u);
    }

    method PlaceAndRecord(u: UploadId, path: Path, hash: Hash, faults: Faults)
      returns (recording: Option<RecordingId>, hasTask: bool, created: bool, ghost outcome: Outcome)
      requires At(u, path, hash, Missed)
      modifies this`world, this`run, this`met, disk, table
      ensures Told(u, path, hash, recording, created, outcome) && outcome != LookupFailed
      ensures Explained(hash, faults, hasTask, recording, outcome)
    {
      Others(Uploader(u));
      if faults.rename {
        DropStaged(u, path, FailPlace(u));
        UploadSettled(world, u);
        return None, true, false, Failed;
      } else {
        PlaceStaged(u, path, hash);
        recording, hasTask, created, outcome := Record(u, path, hash, faults);
      }
    }

    method PlaceStaged(u: UploadId, path: Path, hash: Hash)
      requires At(u, path, hash, Missed)
      modifies this`world, this`run, this`met, disk
      ensures At(u, path, hash, Placed)
    {
      PlacedNow(world, u);
      disk.Replace(path);
      Move(Place(u));
    }

    method DiscardStaged(u: UploadId, path: Path, hash: Hash)
      requires At(u, path, hash, Hit)
      modifies this`world, this`run, this`met, disk, table
      ensures At(u, path, hash, Over(Existing))
      ensures path !in disk.files && path !in disk.parts
      ensures Lasts(old(world), world) && (old(met) ==> met)
    {
      Others(Uploader(u));
      DropStaged(u, path, Discard(u));
    }

    method DropStaged(u: UploadId, path: Path, step: Step)
      requires Valid() && Enabled(step, world) && (step == Discard(u) || step == FailPlace(u))
      requires world.uploads[u].path == path && world.uploads[u].hash == watched
      modifies this`world, this`run, this`met, disk
      ensures At(u, path, watched, Over(if step.Discard? then Existing else Failed))
      ensures path !in disk.files && path !in disk.parts
      ensures Lasts(old(world), world) && (old(met) ==> met)
    {
      StagedGone(step, world, u);
      StepLasts(step, world);
      disk.RemovePart(path);
      Move(step);
    }

    // The file is kept only if the transaction answers that the row is new.
    method Record(u: UploadId, path: Path, hash: Hash, faults: Faults)
      returns (recording: Option<RecordingId>, hasTask: bool, created: bool, ghost outcome: Outcome)
      requires At(u, path, hash, Placed)
      modifies this`world, this`run, this`met, disk, table
      ensures Told(u, path, hash, recording, created, outcome) && outcome != LookupFailed
      ensures Explained(hash, faults, hasTask, recording, outcome)
    {
      recording, hasTask, created, outcome := CreateRecordingAndTask(u, path, hash, faults);
      var keepFile := created;
      if keepFile {
        UploadSettled(world, u);
      } else {
        GiveUp(u, path, hash, recording, hasTask, faults, outcome);
      }
    }

    method GiveUp(u: UploadId, path: Path, hash: Hash, recording: Option<RecordingId>, hasTask: bool, faults: Faults, ghost outcome: Outcome)
      requires Recorded(u, path, hash, recording, false, outcome)
      requires Explained(hash, faults, hasTask, recording, outcome)
      modifies this`world, this`run, this`met, disk, table
      ensures Told(u, path, hash, recording, false, outcome)
      ensures Explained(hash, faults, hasTask, recording, outcome)
    {
      RemoveOwnFile(u, path, hash, outcome);
      UploadSettled(world, u);
    }

    method RemoveOwnFile(u: UploadId, path: Path, hash: Hash, ghost outcome: Outcome)
      requires At(u, path, hash, Losing(outcome))
      modifies this`world, this`run, this`met, disk, table
      ensures At(u, path, hash, Over(outcome))
      ensures path !in disk.files
      ensures Lasts(old(world), world) && (old(met) ==> met)
    {
      Others(Uploader(u));
      disk.RemoveFile(path);
      StepLasts(RemoveOwn(u), world);
      Move(RemoveOwn(u));
    }

    // A new row, or the row there is; neither after an exception.
    method CreateRecordingAndTask(u: UploadId, path: Path, hash: Hash, faults: Faults)
      returns (recording: Option<RecordingId>, hasTask: bool, created: bool, ghost outcome: Outcome)
      requires At(u, path, hash, Placed)
      modifies this`world, this`run, this`met, disk, table
      ensures Recorded(u, path, hash, recording, created, outcome)
      ensures Explained(hash, faults, hasTask, recording, outcome)
    {
      Others(Uploader(u));
      if faults.begin {
        BreakOff(u, path, hash, Failed);
        return None, true, false, Failed;
      }
      recording := FindByHash(u, path, hash);
      Pass(LookAgain(u), u, path, hash);
      if recording.Some? {
        recording, hasTask, outcome := CloseFound(u, path, hash, recording.value, faults);
        created := false;
      } else {
        recording, hasTask, created, outcome := InsertRow(u, path, hash, faults);
      }
    }

    // The task is read and the session closes around the answer; a cancellation
    // there loses it.
    method CloseFound(u: UploadId, path: Path, hash: Hash, found: RecordingId, faults: Faults)
      returns (recording: Option<RecordingId>, hasTask: bool, ghost outcome: Outcome)
      requires At(u, path, hash, Closing(Existing)) && CreatedFor(world, found, hash) && met
      modifies this`world, this`run, this`met, disk, table
      ensures Recorded(u, path, hash, recording, false, outcome)
      ensures Explained(hash, faults, hasTask, recording, outcome)
    {
      hasTask := FindTask(u, path, hash, found);
      if faults.close {
        BreakOff(u, path, hash, Failed);
        return None, true, Failed;
      }
      Pass(Answer(u), u, path, hash);
      recording, outcome := Some(found), Existing;
    }

    method CloseCreated(u: UploadId, path: Path, hash: Hash, id: RecordingId, faults: Faults)
      returns (recording: Option<RecordingId>, created: bool, ghost outcome: Outcome)
      requires At(u, path, hash, Closing(Created(id)))
      modifies this`world, this`run, this`met, disk, table
      ensures Recorded(u, path, hash, recording, created, outcome)
      ensures created <==> !faults.close
      ensures if created then outcome == Created(id) else outcome == Unanswered(id)
    {
      Others(Uploader(u));
      if faults.close {
        BreakOff(u, path, hash, Unanswered(id));
        return None, false, Unanswered(id);
      }
      Pass(Answer(u), u, path, hash);
      UploadSettled(world, u);
      return Some(id), true, Created(id);
    }

    // The insert waits while another transaction holds the hash; it is refused
    // if the hash is taken when the wait is over.
    method InsertRow(u: UploadId, path: Path, hash: Hash, faults: Faults)
      returns (recording: Option<RecordingId>, hasTask: bool, created: bool, ghost outcome: Outcome)
      requires At(u, path, hash, Absent)
      modifies this`world, this`run, this`met, disk, table
      ensures Recorded(u, path, hash, recording, created, outcome)
      ensures Explained(hash, faults, hasTask, recording, outcome)
    {
      Others(Uploader(u));
      if faults.insert {
        BreakOff(u, path, hash, Failed);
        return None, true, false, Failed;
      }
      AwaitIndex(u, path, hash);
      recording, hasTask, created, outcome := InsertNow(u, path, hash, faults);
    }

    method AwaitIndex(u: UploadId, path: Path, hash: Hash)
      requires At(u, path, hash, Absent)
      modifies this`world, this`run, this`met, disk, table
      ensures At(u, path, hash, Absent) && (old(met) ==> met)
      ensures Known(world, hash) || !IndexEntryHeld(world, hash)
    {
      ghost var some := IndexFrees(world, u, hash);
      var steps: seq<Step> :|
        && EnabledRun(steps, world) && AllForeign(steps, Uploader(u))
        && (Known(PerformAll(steps, world), hash) || !IndexEntryHeld(PerformAll(steps, world), hash));
      Elapse(steps, Uploader(u));
    }

    method InsertNow(u: UploadId, path: Path, hash: Hash, faults: Faults)
      returns (recording: Option<RecordingId>, hasTask: bool, created: bool, ghost outcome: Outcome)
      requires At(u, path, hash, Absent) && (Known(world, hash) || !IndexEntryHeld(world, hash))
      modifies this`world, this`run, this`met, disk, table
      ensures Recorded(u, path, hash, recording, created, outcome)
      ensures Explained(hash, faults, hasTask, recording, outcome)
    {
      var rival := FindByHash(u, path, hash);
      var id := Flush(u, path, hash);
      if rival.Some? {
        recording, hasTask, outcome := AfterClash(u, path, hash, rival.value, faults);
        created := false;
      } else {
        recording, created, outcome := CommitInsert(u, path, hash, id, faults);
        hasTask := true;
      }
    }

    method Flush(u: UploadId, path: Path, hash: Hash) returns (id: RecordingId)
      requires At(u, path, hash, Absent) && (Known(world, hash) || !IndexEntryHeld(world, hash))
      modifies this`world, this`run, this`met
      ensures At(u, path, hash, if Known(old(world), hash) then Clashed else Inserted(id))
      ensures Lasts(old(world), world) && (old(met) ==> met)
    {
      ghost var unused := FreshId(world.inserter.Keys);
      id :| id !in world.inserter;
      Flushed(world, u, id);
      StepLasts(Insert(u, id), world);
      Move(Insert(u, id));
    }

    method CommitInsert(u: UploadId, path: Path, hash: Hash, id: RecordingId, faults: Faults)
      returns (recording: Option<RecordingId>, created: bool, ghost outcome: Outcome)
      requires At(u, path, hash, Inserted(id))
      modifies this`world, this`run, this`met, disk, table
      ensures Recorded(u, path, hash, recording, created, outcome)
      ensures if faults.commit then outcome == Failed else if faults.close then outcome == Unanswered(id) else created
    {
      Others(Uploader(u));
      if faults.commit {
        BreakOff(u, path, hash, Failed);
        return None, false, Failed;
      }
      CommitRowNow(u, path, hash, id);
      recording, created, outcome := CloseCreated(u, path, hash, id, faults);
    }

    method CommitRowNow(u: UploadId, path: Path, hash: Hash, id: RecordingId)
      requires At(u, path, hash, Inserted(id))
      modifies this`world, this`run, this`met, table
      ensures At(u, path, hash, Closing(Created(id)))
    {
      Committed(world, u);
      table.rows := table.rows[id := Recording(path, hash)];
      Move(CommitRow(u));
    }

    // IntegrityError: rolled back, then the row that won is looked up.
    method AfterClash(u: UploadId, path: Path, hash: Hash, rival: RecordingId, faults: Faults)
      returns (recording: Option<RecordingId>, hasTask: bool, ghost outcome: Outcome)
      requires At(u, path, hash, Clashed) && CreatedFor(world, rival, hash) && met
      modifies this`world, this`run, this`met, disk, table
      ensures Recorded(u, path, hash, recording, false, outcome)
      ensures Explained(hash, faults, hasTask, recording, outcome)
    {
      Others(Uploader(u));
      if faults.clash {
        BreakOff(u, path, hash, Failed);
        return None, true, Failed;
      }
      recording := FindByHash(u, path, hash);
      if recording == None {
        LoserIsBeaten(rival, hash);
      }
      Pass(Resolve(u), u, path, hash);
      if recording.Some? {
        recording, hasTask, outcome := CloseFound(u, path, hash, recording.value, faults);
      } else {
        hasTask, outcome := true, Failed;
      }
    }

    lemma LoserIsBeaten(rival: RecordingId, hash: Hash)
      requires Valid() && CreatedFor(world, rival, hash) && !Known(world, hash)
      ensures RowGone(world, rival)
    {
      var u := world.inserter[rival];
      assert UploadInv(world, u);
      assert rival !in world.recordings;
      FoundOrGone(world, rival, hash);
    }

    // A deletion that answers leaves neither row nor file; one that finds
    // nothing, or fails, changes nothing; one cut off after its commit leaves
    // the file, unless another request removes it. Only a fault keeps it from
    // one of the first two.
    method DeleteRecording(d: DeletionId, recording: RecordingId, faults: DeleteFaults) returns (outcome: DeleteOutcome)
      requires Valid() && d !in world.deletions && run == [] && origin == world
      modifies this`world, this`run, this`met, disk, table
      ensures origin == old(world) && ToldDeleted(d, recording, outcome)
      ensures (outcome == NotDeleted ==> faults.commit) && (outcome.CutOff? ==> faults.close)
    {
      Others(Deleter(d));
      var found := recording in table.rows;
      Move(DeleteRead(d, recording));
      if !found {
        return NotFound;
      }
      var path := table.rows[recording].path;
      outcome := DeleteFound(d, recording, path, faults);
    }

    ghost predicate ToldDeleted(d: DeletionId, recording: RecordingId, outcome: DeleteOutcome)
      reads this, disk, table
    {
      && Valid() && d in world.deletions
      && match outcome
         case Gone(path) =>
           && world.deletions[d] == Removed(recording, path) && CreatedBy(world, recording, path)
           && recording !in table.rows && path !in disk.files
         case CutOff(path) =>
           && world.deletions[d] == Stranded(recording, path) && CreatedBy(world, recording, path)
           && recording !in table.rows && (path in disk.files <==> !Swept(world, recording, path))
         case NotFound => world.deletions[d] == Finished && recording !in table.rows
         case NotDeleted => world.deletions[d] == Finished
    }

    method DeleteFound(d: DeletionId, recording: RecordingId, path: Path, faults: DeleteFaults) returns (outcome: DeleteOutcome)
      requires Valid() && d in world.deletions && world.deletions[d] == Read(recording, path)
      modifies this`world, this`run, this`met, disk, table
      ensures ToldDeleted(d, recording, outcome)
      ensures outcome == if faults.commit then NotDeleted else if faults.close then CutOff(path) else Gone(path)
    {
      Others(Deleter(d));
      if faults.commit {
        Move(FailDelete(d));
        return NotDeleted;
      }
      table.rows := table.rows - {recording};
      Move(DeleteCommit(d));
      outcome := RemoveDeleted(d, recording, path, faults);
    }

    method RemoveDeleted(d: DeletionId, recording: RecordingId, path: Path, faults: DeleteFaults) returns (outcome: DeleteOutcome)
      requires Valid() && d in world.deletions && world.deletions[d] == Removing(recording, path)
      modifies this`world, this`run, this`met, disk, table
      ensures ToldDeleted(d, recording, outcome) && outcome == if faults.close then CutOff(path) else Gone(path)
    {
      Others(Deleter(d));
      if faults.close {
        Move(CutDelete(d));
        StrandedFile(world, d);
        outcome := CutOff(path);
      } else {
        disk.RemoveFile(path);
        Move(DeleteRemove(d));
        outcome := Gone(path);
      }
      assert DeletionInv(world, d);
    }
  }
}
