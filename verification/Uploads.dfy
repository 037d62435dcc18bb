// Uploads and deletions of recordings, interleaved freely, with the disk and
// the `recordings` table changing one step at a time. Paths are fresh UUIDs; a
// step that fails has no effect; the removal of a file, once begun, succeeds.
module Uploads {
  import opened Options

  type Path = nat         // the final path; its staged form is the `.part` of the same name
  type Hash = nat
  type RecordingId = nat
  type UploadId = nat
  type DeletionId = nat

  datatype Outcome =
    | Created(recording: RecordingId)
    | Existing
    | Failed
    | LookupFailed
    | Unanswered(recording: RecordingId)  // cut off after its commit

  datatype Phase =
    | Staged                           // complete `.part` on disk
    | Hit                              // the hash is known: about to discard
    | Missed                           // about to rename into place
    | Placed                           // final file on disk, nothing recorded
    | Absent                           // looked again inside the transaction
    | Inserted(recording: RecordingId) // flushed: holds the unique index entry
    | Clashed                          // IntegrityError: rolled back
    | Closing(answer: Outcome)         // the transaction is over, its session closing
    | Losing(outcome: Outcome)         // about to remove its own file
    | Over(outcome: Outcome)

  datatype Upload = Upload(path: Path, hash: Hash, phase: Phase)

  datatype Deletion =
    | Read(recording: RecordingId, path: Path)
    | Removing(recording: RecordingId, path: Path)  // committed
    | Removed(recording: RecordingId, path: Path)
    | Stranded(recording: RecordingId, path: Path)  // cut off after its commit
    | Finished                                      // found nothing, or failed
  {
    predicate Committed() { Removing? || Removed? || Stranded? }

    predicate Settled() { Removed? || Stranded? || Finished? }
  }

  datatype Recording = Recording(path: Path, hash: Hash)

  datatype State = State(
    files: set<Path>,
    parts: set<Path>,
    recordings: map<RecordingId, Recording>,
    uploads: map<UploadId, Upload>,
    deletions: map<DeletionId, Deletion>,
    owner: map<Path, UploadId>,           // who drew the path
    inserter: map<RecordingId, UploadId>) // who drew the recording id

  datatype Step =
    | Stage(u: UploadId, path: Path, hash: Hash)
    | Lookup(u: UploadId)
    | FailLookup(u: UploadId)
    | Discard(u: UploadId)
    | Place(u: UploadId)
    | FailPlace(u: UploadId)
    | LookAgain(u: UploadId)
    | Insert(u: UploadId, recording: RecordingId)
    | CommitRow(u: UploadId)
    | Resolve(u: UploadId)
    | Answer(u: UploadId)     // create_recording_and_task returns
    | Break(u: UploadId)      // exception or cancellation inside it, its session's closing included
    | RemoveOwn(u: UploadId)
    | DeleteRead(d: DeletionId, recording: RecordingId)
    | DeleteCommit(d: DeletionId)
    | FailDelete(d: DeletionId)
    | CutDelete(d: DeletionId) // cancelled while the session closes
    | DeleteRemove(d: DeletionId)

  const EMPTY := State({}, {}, map[], map[], map[], map[], map[])

  predicate Known(s: State, hash: Hash) {
    exists r :: r in s.recordings && s.recordings[r].hash == hash
  }

  predicate IndexEntryHeld(s: State, hash: Hash) {
    exists v :: v in s.uploads && s.uploads[v].phase.Inserted? && s.uploads[v].hash == hash
  }

  function To(s: State, u: UploadId, phase: Phase): State {
    if u in s.uploads then s.(uploads := s.uploads[u := s.uploads[u].(phase := phase)]) else s
  }

  predicate Transacting(p: Phase) {
    p.Placed? || p.Absent? || p.Inserted? || p.Clashed?
  }

  function RowOf(o: Outcome): Option<RecordingId> {
    if o.Created? || o.Unanswered? then Some(o.recording) else None
  }

  // The row this upload has committed.
  function Owned(p: Phase): Option<RecordingId> {
    match p
    case Closing(answer) => RowOf(answer)
    case Losing(outcome) => RowOf(outcome)
    case Over(outcome) => RowOf(outcome)
    case _ => None
  }

  // The final file is there and no row of its own is.
  predicate OnDisk(p: Phase) {
    Transacting(p) || ((p.Closing? || p.Losing?) && Owned(p) == None)
  }

  predicate PartOnDisk(p: Phase) {
    p.Staged? || p.Hit? || p.Missed? || p == Over(LookupFailed)
  }

  // Its row stands, or stood, and it has removed its file.
  predicate Dropped(p: Phase) {
    p.Over? && p.outcome.Unanswered?
  }

  predicate In(s: State, u: UploadId, p: Phase) {
    u in s.uploads && s.uploads[u].phase == p
  }

  predicate Enabled(step: Step, s: State) {
    match step
    case Stage(u, path, _) => u !in s.uploads && path !in s.owner
    case Lookup(u) => In(s, u, Staged)
    case FailLookup(u) => In(s, u, Staged)
    case Discard(u) => In(s, u, Hit)
    case Place(u) => In(s, u, Missed)
    case FailPlace(u) => In(s, u, Missed)
    case LookAgain(u) => In(s, u, Placed)
    case Insert(u, r) =>
      In(s, u, Absent) && r !in s.inserter && (Known(s, s.uploads[u].hash) || !IndexEntryHeld(s, s.uploads[u].hash))
    case CommitRow(u) => u in s.uploads && s.uploads[u].phase.Inserted?
    case Resolve(u) => In(s, u, Clashed)
    case Answer(u) => u in s.uploads && s.uploads[u].phase.Closing?
    case Break(u) => u in s.uploads && (Transacting(s.uploads[u].phase) || s.uploads[u].phase.Closing?)
    case RemoveOwn(u) => u in s.uploads && s.uploads[u].phase.Losing?
    case DeleteRead(d, _) => d !in s.deletions
    case DeleteCommit(d) => d in s.deletions && s.deletions[d].Read?
    case FailDelete(d) => d in s.deletions && s.deletions[d].Read?
    case CutDelete(d) => d in s.deletions && s.deletions[d].Removing?
    case DeleteRemove(d) => d in s.deletions && s.deletions[d].Removing?
  }

  // Steps that touch neither disk nor table, and where they lead.
  predicate Rephasing(step: Step) {
    step.Lookup? || step.FailLookup? || step.LookAgain? || step.Resolve? || step.Answer? || step.Break?
  }

  function NextPhase(step: Step, p: Phase, known: bool): Phase {
    match step
    case Lookup(_) => if known then Hit else Missed
    case FailLookup(_) => Over(LookupFailed)
    case LookAgain(_) => if known then Closing(Existing) else Absent
    case Resolve(_) => if known then Closing(Existing) else Losing(Failed)
    case Answer(_) =>
      // keep_file = created
      if p.Closing? then (if p.answer.Created? then Over(p.answer) else Losing(p.answer)) else p
    case _ =>
      // keep_file is still False
      if Owned(p).Some? then Losing(Unanswered(Owned(p).value)) else Losing(Failed)
  }

  function PerformUpload(step: Step, s: State, u: UploadId, up: Upload): State {
    match step
    case Discard(_) => To(s, u, Over(Existing)).(parts := s.parts - {up.path})
    case FailPlace(_) => To(s, u, Over(Failed)).(parts := s.parts - {up.path})
    case Place(_) => To(s, u, Placed).(parts := s.parts - {up.path}, files := s.files + {up.path})
    case Insert(_, r) =>
      To(s, u, if Known(s, up.hash) then Clashed else Inserted(r)).(inserter := s.inserter[r := u])
    case CommitRow(_) =>
      if !up.phase.Inserted? then s else
      To(s, u, Closing(Created(up.phase.recording)))
      .(recordings := s.recordings[up.phase.recording := Recording(up.path, up.hash)])
    case _ =>
      if !up.phase.Losing? then s else
      To(s, u, Over(up.phase.outcome)).(files := s.files - {up.path})
  }

  function Perform(step: Step, s: State): State {
    match step
    case Stage(u, path, hash) =>
      s.(parts := s.parts + {path}, uploads := s.uploads[u := Upload(path, hash, Staged)], owner := s.owner[path := u])
    case DeleteRead(d, r) =>
      s.(deletions := s.deletions[d := if r in s.recordings then Read(r, s.recordings[r].path) else Finished])
    case DeleteCommit(d) =>
      if d !in s.deletions || !s.deletions[d].Read? then s else
      var t := s.deletions[d];
      s.(recordings := s.recordings - {t.recording}, deletions := s.deletions[d := Removing(t.recording, t.path)])
    case FailDelete(d) => s.(deletions := s.deletions[d := Finished])
    case CutDelete(d) =>
      if d !in s.deletions || !s.deletions[d].Removing? then s else
      s.(deletions := s.deletions[d := Stranded(s.deletions[d].recording, s.deletions[d].path)])
    case DeleteRemove(d) =>
      if d !in s.deletions || !s.deletions[d].Removing? then s else
      var t := s.deletions[d];
      s.(files := s.files - {t.path}, deletions := s.deletions[d := Removed(t.recording, t.path)])
    case _ =>
      if step.u !in s.uploads then s
      else
        var up := s.uploads[step.u];
        if Rephasing(step) then To(s, step.u, NextPhase(step, up.phase, Known(s, up.hash)))
        else PerformUpload(step, s, step.u, up)
  }

  // ----- The invariant, one upload, recording or deletion at a time

  // A deletion of the recording has committed; one has removed its file.
  ghost predicate Deleted(s: State, r: RecordingId, path: Path) {
    exists d :: d in s.deletions && s.deletions[d].Committed() && s.deletions[d].recording == r && s.deletions[d].path == path
  }

  ghost predicate Erased(s: State, r: RecordingId, path: Path) {
    exists d :: d in s.deletions && s.deletions[d] == Removed(r, path)
  }

  ghost predicate HasFile(s: State, up: Upload) {
    || OnDisk(up.phase)
    || (Owned(up.phase).Some? && !Dropped(up.phase) && !Erased(s, Owned(up.phase).value, up.path))
  }

  predicate Fair(p: Phase) {
    && (p.Closing? ==> p.answer == Existing || p.answer.Created?)
    && (p.Losing? ==> p.outcome == Existing || p.outcome == Failed || p.outcome.Unanswered?)
  }

  ghost predicate UploadInv(s: State, u: UploadId)
    requires u in s.uploads
  {
    var up := s.uploads[u];
    && up.path in s.owner && s.owner[up.path] == u
    && Fair(up.phase)
    && (PartOnDisk(up.phase) <==> up.path in s.parts)
    && (HasFile(s, up) <==> up.path in s.files)
    && (up.phase.Inserted? ==>
          && up.phase.recording in s.inserter && s.inserter[up.phase.recording] == u
          && up.phase.recording !in s.recordings
          && !Known(s, up.hash))
    && (Owned(up.phase).Some? ==>
          var r := Owned(up.phase).value;
          && r in s.inserter && s.inserter[r] == u
          && (if r in s.recordings then s.recordings[r] == Recording(up.path, up.hash) else Deleted(s, r, up.path)))
  }

  // A recording was committed by the one upload that drew its id.
  ghost predicate CreatedBy(s: State, r: RecordingId, path: Path) {
    && r in s.inserter && s.inserter[r] in s.uploads
    && Owned(s.uploads[s.inserter[r]].phase) == Some(r)
    && s.uploads[s.inserter[r]].path == path
  }

  ghost predicate RecordingInv(s: State, r: RecordingId)
    requires r in s.recordings
  {
    CreatedBy(s, r, s.recordings[r].path)
  }

  ghost predicate DeletionInv(s: State, d: DeletionId)
    requires d in s.deletions
  {
    var e := s.deletions[d];
    && (e.Read? || e.Committed() ==> CreatedBy(s, e.recording, e.path))
    && (e.Committed() ==> e.recording !in s.recordings)
  }

  // Two uploads cannot both hold the unique index entry of one hash.
  predicate Rivals(a: Upload, b: Upload) {
    a.phase.Inserted? && b.phase.Inserted? && a.hash == b.hash
  }

  ghost predicate OnePerHash(s: State) {
    && (forall q, r :: q in s.recordings && r in s.recordings && s.recordings[q].hash == s.recordings[r].hash ==> q == r)
    && (forall u, v :: u in s.uploads && v in s.uploads && Rivals(s.uploads[u], s.uploads[v]) ==> u == v)
  }

  ghost predicate Inv(s: State) {
    && (forall u :: u in s.uploads ==> UploadInv(s, u))
    && (forall r :: r in s.recordings ==> RecordingInv(s, r))
    && (forall d :: d in s.deletions ==> DeletionInv(s, d))
    && OnePerHash(s)
    && (forall p :: p in s.files || p in s.parts ==> p in s.owner)
    && (forall p :: p in s.owner ==> s.owner[p] in s.uploads && s.uploads[s.owner[p]].path == p)
  }

  // ----- Steps of one upload

  // Upload u moves on to `now`; at most its own files and its own recording change.
  ghost predicate OwnMove(s: State, t: State, u: UploadId, now: Upload) {
    && t.uploads == s.uploads[u := now]
    && (if u in s.uploads then
          && s.uploads[u].path == now.path && s.uploads[u].hash == now.hash
          && (Owned(s.uploads[u].phase).Some? ==> Owned(now.phase) == Owned(s.uploads[u].phase))
        else now.path !in s.owner)
    && t.owner == s.owner[now.path := u]
    && t.deletions == s.deletions
    && (forall p :: p != now.path ==> ((p in t.files <==> p in s.files) && (p in t.parts <==> p in s.parts)))
    && (forall r :: r in s.inserter ==> r in t.inserter && t.inserter[r] == s.inserter[r])
    && (forall r :: r in s.recordings ==> r in t.recordings && t.recordings[r] == s.recordings[r])
    && (forall r :: r in t.recordings && r !in s.recordings ==>
          Owned(now.phase) == Some(r) && t.recordings[r] == Recording(now.path, now.hash))
  }

  lemma SameDeletions(s: State, t: State)
    requires t.deletions == s.deletions
    ensures forall r, path :: Deleted(t, r, path) <==> Deleted(s, r, path)
    ensures forall r, path :: Erased(t, r, path) <==> Erased(s, r, path)
  {
  }

  lemma OtherUploadKept(s: State, t: State, u: UploadId, now: Upload, v: UploadId)
    requires v in s.uploads && v != u && UploadInv(s, v) && OwnMove(s, t, u, now)
    requires now.path in s.owner ==> s.owner[now.path] == u
    requires Owned(now.phase).Some? ==>
      Owned(now.phase).value in t.inserter && t.inserter[Owned(now.phase).value] == u
    requires s.uploads[v].phase.Inserted? ==> !Known(t, s.uploads[v].hash)
    ensures UploadInv(t, v)
  {
    assert s.uploads[v].path != now.path;
    SameDeletions(s, t);
  }

  lemma CreatedByKept(s: State, t: State, u: UploadId, now: Upload, r: RecordingId, path: Path)
    requires OwnMove(s, t, u, now) && CreatedBy(s, r, path)
    ensures CreatedBy(t, r, path)
  {
  }

  lemma UploadMoves(s: State, t: State, u: UploadId, now: Upload)
    requires Inv(s) && OwnMove(s, t, u, now)
    requires UploadInv(t, u) && OnePerHash(t)
    requires forall v :: v in s.uploads && v != u && s.uploads[v].phase.Inserted? ==> !Known(t, s.uploads[v].hash)
    requires forall r :: r in t.recordings && r !in s.recordings ==> r in t.inserter && t.inserter[r] == u && !Deleted(s, r, now.path)
    ensures Inv(t)
  {
    forall v | v in t.uploads ensures UploadInv(t, v) {
      if v != u {
        OtherUploadKept(s, t, u, now, v);
      }
    }
    forall r | r in t.recordings ensures RecordingInv(t, r) {
      if r in s.recordings {
        assert RecordingInv(s, r);
        CreatedByKept(s, t, u, now, r, s.recordings[r].path);
      }
    }
    forall d | d in t.deletions ensures DeletionInv(t, d) {
      DeletionKept(s, t, u, now, d);
    }
  }

  lemma DeletionKept(s: State, t: State, u: UploadId, now: Upload, d: DeletionId)
    requires OwnMove(s, t, u, now) && d in s.deletions && DeletionInv(s, d)
    requires forall r :: r in t.recordings && r !in s.recordings ==> r in t.inserter && t.inserter[r] == u && !Deleted(s, r, now.path)
    ensures DeletionInv(t, d)
  {
    var e := s.deletions[d];
    if !e.Finished? {
      CreatedByKept(s, t, u, now, e.recording, e.path);
    }
    if e.Committed() {
      assert Deleted(s, e.recording, e.path);
    }
  }

  lemma QuietMove(s: State, t: State, u: UploadId, now: Upload)
    requires Inv(s) && OwnMove(s, t, u, now) && UploadInv(t, u) && t.recordings == s.recordings
    requires now.phase.Inserted? ==> !IndexEntryHeld(s, now.hash)
    ensures Inv(t)
  {
    QuietPerHash(s, t, u, now);
    forall v | v in s.uploads && v != u && s.uploads[v].phase.Inserted? ensures !Known(t, s.uploads[v].hash) {
      assert UploadInv(s, v);
      assert Known(t, s.uploads[v].hash) <==> Known(s, s.uploads[v].hash);
    }
    UploadMoves(s, t, u, now);
  }

  lemma QuietPerHash(s: State, t: State, u: UploadId, now: Upload)
    requires OnePerHash(s) && t.uploads == s.uploads[u := now] && t.recordings == s.recordings
    requires now.phase.Inserted? ==> !IndexEntryHeld(s, now.hash)
    ensures OnePerHash(t)
  {
  }

  // For each kind of step: the upload's own part of the invariant, then the rest.

  // Nothing of an upload but its phase changes, and that means nothing to disk or table.
  predicate Alike(p: Phase, q: Phase) {
    && Fair(q) && !q.Inserted?
    && Owned(p) == Owned(q) && (OnDisk(p) <==> OnDisk(q)) && (PartOnDisk(p) <==> PartOnDisk(q))
    && (Dropped(p) <==> Dropped(q))
  }

  lemma RephaseOwn(s: State, u: UploadId, phase: Phase)
    requires u in s.uploads && UploadInv(s, u) && Alike(s.uploads[u].phase, phase)
    ensures UploadInv(To(s, u, phase), u) && OwnMove(s, To(s, u, phase), u, s.uploads[u].(phase := phase))
  {
    SameDeletions(s, To(s, u, phase));
  }

  lemma RephaseFits(step: Step, s: State, known: bool)
    requires Enabled(step, s) && Rephasing(step)
    requires step.u in s.uploads ==> Fair(s.uploads[step.u].phase)
    ensures step.u in s.uploads
    ensures Alike(s.uploads[step.u].phase, NextPhase(step, s.uploads[step.u].phase, known))
  {
  }

  lemma RephaseSteps(step: Step, s: State)
    requires Inv(s) && Enabled(step, s) && Rephasing(step)
    ensures Inv(Perform(step, s))
  {
    var up := s.uploads[step.u];
    assert UploadInv(s, step.u);
    RephaseFits(step, s, Known(s, up.hash));
    Rephase(s, step.u, NextPhase(step, up.phase, Known(s, up.hash)));
  }

  lemma Rephase(s: State, u: UploadId, phase: Phase)
    requires Inv(s) && u in s.uploads && Alike(s.uploads[u].phase, phase)
    ensures Inv(To(s, u, phase))
  {
    RephaseOwn(s, u, phase);
    QuietMove(s, To(s, u, phase), u, s.uploads[u].(phase := phase));
  }

  lemma InsertOwn(s: State, u: UploadId, r: RecordingId, phase: Phase)
    requires In(s, u, Absent) && UploadInv(s, u) && r !in s.inserter && r !in s.recordings
    requires phase == Clashed || (phase == Inserted(r) && !Known(s, s.uploads[u].hash))
    ensures
      var t := To(s, u, phase).(inserter := s.inserter[r := u]);
      UploadInv(t, u) && OwnMove(s, t, u, s.uploads[u].(phase := phase))
  {
    var t := To(s, u, phase).(inserter := s.inserter[r := u]);
    SameDeletions(s, t);
    assert Known(t, s.uploads[u].hash) <==> Known(s, s.uploads[u].hash);
  }

  lemma InsertStep(s: State, u: UploadId, r: RecordingId)
    requires Inv(s) && Enabled(Insert(u, r), s)
    ensures Inv(Perform(Insert(u, r), s))
  {
    UndrawnIsNew(s, r);
    InsertMoves(s, u, r, if Known(s, s.uploads[u].hash) then Clashed else Inserted(r));
  }

  lemma UndrawnIsNew(s: State, r: RecordingId)
    requires Inv(s) && r !in s.inserter
    ensures r !in s.recordings
  {
    assert r in s.recordings ==> RecordingInv(s, r);
  }

  lemma InsertMoves(s: State, u: UploadId, r: RecordingId, phase: Phase)
    requires Inv(s) && In(s, u, Absent) && r !in s.inserter && r !in s.recordings
    requires
      || phase == Clashed
      || (phase == Inserted(r) && !Known(s, s.uploads[u].hash) && !IndexEntryHeld(s, s.uploads[u].hash))
    ensures Inv(To(s, u, phase).(inserter := s.inserter[r := u]))
  {
    InsertOwn(s, u, r, phase);
    QuietMove(s, To(s, u, phase).(inserter := s.inserter[r := u]), u, s.uploads[u].(phase := phase));
  }

  lemma StageStep(s: State, u: UploadId, path: Path, hash: Hash)
    requires Inv(s) && Enabled(Stage(u, path, hash), s)
    ensures Inv(Perform(Stage(u, path, hash), s))
  {
    var t := Perform(Stage(u, path, hash), s);
    SameDeletions(s, t);
    assert UploadInv(t, u);
    QuietMove(s, t, u, t.uploads[u]);
  }

  // The part goes: discarded, or renamed into place.
  lemma PartGoes(step: Step, s: State, t: State, u: UploadId)
    requires step == Discard(u) || step == FailPlace(u) || step == Place(u)
    requires u in s.uploads && UploadInv(s, u) && Enabled(step, s)
    requires t == PerformUpload(step, s, u, s.uploads[u])
    ensures u in t.uploads && UploadInv(t, u) && OwnMove(s, t, u, t.uploads[u])
    ensures t.recordings == s.recordings && !t.uploads[u].phase.Inserted?
  {
    SameDeletions(s, t);
  }

  lemma FileGoes(s: State, t: State, u: UploadId)
    requires u in s.uploads && UploadInv(s, u) && Enabled(RemoveOwn(u), s)
    requires t == PerformUpload(RemoveOwn(u), s, u, s.uploads[u])
    ensures u in t.uploads && UploadInv(t, u) && OwnMove(s, t, u, t.uploads[u])
    ensures t.recordings == s.recordings && !t.uploads[u].phase.Inserted?
  {
    SameDeletions(s, t);
  }

  lemma DiskStepIs(step: Step, s: State)
    requires step.Discard? || step.FailPlace? || step.Place? || step.RemoveOwn?
    requires Enabled(step, s)
    ensures step.u in s.uploads && Perform(step, s) == PerformUpload(step, s, step.u, s.uploads[step.u])
  {
  }

  lemma DiskSteps(step: Step, s: State)
    requires Inv(s) && Enabled(step, s)
    requires step.Discard? || step.FailPlace? || step.Place? || step.RemoveOwn?
    ensures Inv(Perform(step, s))
  {
    DiskStepIs(step, s);
    DiskMoves(s, PerformUpload(step, s, step.u, s.uploads[step.u]), step.u, step);
  }

  lemma DiskMoves(s: State, t: State, u: UploadId, step: Step)
    requires step.Discard? || step.FailPlace? || step.Place? || step.RemoveOwn?
    requires Inv(s) && Enabled(step, s) && u == step.u && u in s.uploads
    requires t == PerformUpload(step, s, u, s.uploads[u])
    ensures Inv(t)
  {
    assert UploadInv(s, u);
    if step.RemoveOwn? {
      FileGoes(s, t, u);
    } else {
      PartGoes(step, s, t, u);
    }
    QuietMove(s, t, u, t.uploads[u]);
  }

  // Nobody deletes a row before it is committed.
  lemma NotYetDeleted(s: State, u: UploadId, path: Path)
    requires Inv(s) && u in s.uploads && s.uploads[u].phase.Inserted?
    ensures !Deleted(s, s.uploads[u].phase.recording, path) && !Erased(s, s.uploads[u].phase.recording, path)
  {
    assert UploadInv(s, u);
    forall d | d in s.deletions && s.deletions[d].Committed()
      ensures s.deletions[d].recording != s.uploads[u].phase.recording
    {
      assert DeletionInv(s, d);
    }
  }

  lemma CommitOwn(s: State, u: UploadId, t: State)
    requires u in s.uploads && s.uploads[u].phase.Inserted? && UploadInv(s, u)
    requires !Erased(s, s.uploads[u].phase.recording, s.uploads[u].path)
    requires t == PerformUpload(CommitRow(u), s, u, s.uploads[u])
    ensures u in t.uploads && UploadInv(t, u) && OwnMove(s, t, u, t.uploads[u])
    ensures forall h :: Known(t, h) <==> Known(s, h) || h == s.uploads[u].hash
    ensures t.recordings == s.recordings[s.uploads[u].phase.recording := Recording(s.uploads[u].path, s.uploads[u].hash)]
  {
    var up := s.uploads[u];
    SameDeletions(s, t);
    assert t.recordings[up.phase.recording].hash == up.hash;
    assert forall r :: r in s.recordings ==> t.recordings[r] == s.recordings[r];
  }

  lemma CommitStep(s: State, u: UploadId)
    requires Inv(s) && Enabled(CommitRow(u), s)
    ensures Inv(Perform(CommitRow(u), s))
  {
    CommitMoves(s, PerformUpload(CommitRow(u), s, u, s.uploads[u]), u);
  }

  // What the unique index bought: no other open insert is of the hash committed.
  lemma CommitUnrivalled(s: State, t: State, u: UploadId, v: UploadId)
    requires Inv(s) && u in s.uploads && s.uploads[u].phase.Inserted?
    requires forall h :: Known(t, h) <==> Known(s, h) || h == s.uploads[u].hash
    requires v in s.uploads && v != u && s.uploads[v].phase.Inserted?
    ensures !Known(t, s.uploads[v].hash)
  {
    assert UploadInv(s, v);
    assert Rivals(s.uploads[u], s.uploads[v]) ==> u == v;
  }

  lemma CommitOnePerHash(s: State, t: State, u: UploadId)
    requires OnePerHash(s) && u in s.uploads && UploadInv(s, u) && s.uploads[u].phase.Inserted?
    requires t == PerformUpload(CommitRow(u), s, u, s.uploads[u])
    ensures OnePerHash(t)
  {
    var up := s.uploads[u];
    assert t.uploads == s.uploads[u := Upload(up.path, up.hash, Closing(Created(up.phase.recording)))];
    assert t.recordings == s.recordings[up.phase.recording := Recording(up.path, up.hash)];
    assert forall q :: q in s.recordings ==> s.recordings[q].hash != up.hash;
  }

  lemma CommitMoves(s: State, t: State, u: UploadId)
    requires Inv(s) && u in s.uploads && s.uploads[u].phase.Inserted?
    requires t == PerformUpload(CommitRow(u), s, u, s.uploads[u])
    ensures Inv(t)
  {
    NotYetDeleted(s, u, s.uploads[u].path);
    CommitOwn(s, u, t);
    CommitOnePerHash(s, t, u);
    forall v | v in s.uploads && v != u && s.uploads[v].phase.Inserted? ensures !Known(t, s.uploads[v].hash) {
      CommitUnrivalled(s, t, u, v);
    }
    UploadMoves(s, t, u, t.uploads[u]);
  }

  // ----- Steps of one deletion

  // Deletion d moves on; what it has committed and removed it keeps.
  ghost predicate DeletionMove(s: State, t: State, d: DeletionId, now: Deletion) {
    && t.uploads == s.uploads && t.parts == s.parts && t.owner == s.owner && t.inserter == s.inserter
    && t.deletions == s.deletions[d := now]
    && (d in s.deletions ==>
          && !s.deletions[d].Removed?
          && (s.deletions[d].Committed() ==>
                now.Committed() && now.recording == s.deletions[d].recording && now.path == s.deletions[d].path))
    && t.files == (if now.Removed? then s.files - {now.path} else s.files)
    && t.recordings == (if now.Committed() then s.recordings - {now.recording} else s.recordings)
    && (now.Read? || now.Committed() ==> CreatedBy(s, now.recording, now.path))
  }

  lemma DeletedGrows(s: State, t: State, d: DeletionId, now: Deletion, r: RecordingId, path: Path)
    requires DeletionMove(s, t, d, now)
    ensures Deleted(t, r, path) <==> Deleted(s, r, path) || (now.Committed() && now.recording == r && now.path == path)
    ensures Erased(t, r, path) <==> Erased(s, r, path) || now == Removed(r, path)
  {
    if Deleted(s, r, path) {
      var e :| e in s.deletions && s.deletions[e].Committed() && s.deletions[e].recording == r && s.deletions[e].path == path;
      assert t.deletions[e].Committed() && t.deletions[e].recording == r && t.deletions[e].path == path;
    }
    if Erased(s, r, path) {
      var e :| e in s.deletions && s.deletions[e] == Removed(r, path);
      assert t.deletions[e] == Removed(r, path);
    }
    assert t.deletions[d] == now;
  }

  lemma UploadOutlivesDeletion(s: State, t: State, d: DeletionId, now: Deletion, u: UploadId)
    requires Inv(s) && DeletionMove(s, t, d, now) && u in s.uploads
    ensures UploadInv(t, u)
  {
    var up := s.uploads[u];
    assert UploadInv(s, u);
    assert Known(t, up.hash) ==> Known(s, up.hash);
    if now.Committed() {
      assert UploadInv(s, s.inserter[now.recording]);
    }
    if Owned(up.phase).Some? {
      DeletedGrows(s, t, d, now, Owned(up.phase).value, up.path);
    }
  }

  lemma DeletionMoves(s: State, t: State, d: DeletionId, now: Deletion)
    requires Inv(s) && DeletionMove(s, t, d, now)
    ensures Inv(t)
  {
    forall u | u in t.uploads ensures UploadInv(t, u) {
      UploadOutlivesDeletion(s, t, d, now, u);
    }
    forall r | r in t.recordings ensures RecordingInv(t, r) {
      assert RecordingInv(s, r);
    }
    forall e | e in t.deletions ensures DeletionInv(t, e) {
      if e != d {
        assert DeletionInv(s, e);
      }
    }
  }

  lemma DeleteReadStep(s: State, d: DeletionId, r: RecordingId)
    requires Inv(s) && Enabled(DeleteRead(d, r), s)
    ensures Inv(Perform(DeleteRead(d, r), s))
  {
    var t := Perform(DeleteRead(d, r), s);
    if r in s.recordings {
      assert RecordingInv(s, r);
    }
    DeletionMoves(s, t, d, t.deletions[d]);
  }

  lemma DeletionGoesOn(step: Step, s: State, t: State, d: DeletionId)
    requires step == DeleteCommit(d) || step == FailDelete(d) || step == CutDelete(d) || step == DeleteRemove(d)
    requires Enabled(step, s) && t == Perform(step, s)
    requires d in s.deletions && DeletionInv(s, d)
    ensures d in t.deletions && DeletionMove(s, t, d, t.deletions[d])
  {
    if step.CutDelete? || step.DeleteRemove? {
      assert s.recordings == s.recordings - {s.deletions[d].recording};
    }
  }

  lemma DeletionSteps(step: Step, s: State, d: DeletionId)
    requires Inv(s) && Enabled(step, s)
    requires step == DeleteCommit(d) || step == FailDelete(d) || step == CutDelete(d) || step == DeleteRemove(d)
    ensures Inv(Perform(step, s))
  {
    var t := Perform(step, s);
    DeletionGoesOn(step, s, t, d);
    DeletionMoves(s, t, d, t.deletions[d]);
  }

  lemma UploadSteps(step: Step, s: State)
    requires Inv(s) && Enabled(step, s)
    requires step.Stage? || step.Insert? || step.CommitRow? || Rephasing(step)
    ensures Inv(Perform(step, s))
  {
    match step
    case Stage(u, path, hash) => StageStep(s, u, path, hash);
    case Insert(u, r) => InsertStep(s, u, r);
    case CommitRow(u) => CommitStep(s, u);
    case _ => RephaseSteps(step, s);
  }

  lemma InvStep(step: Step, s: State)
    requires Inv(s) && Enabled(step, s)
    ensures Inv(Perform(step, s))
  {
    if step.DeleteRead? {
      DeleteReadStep(s, step.d, step.recording);
    } else if step.DeleteCommit? || step.FailDelete? || step.CutDelete? || step.DeleteRemove? {
      DeletionSteps(step, s, step.d);
    } else if step.Discard? || step.FailPlace? || step.Place? || step.RemoveOwn? {
      DiskSteps(step, s);
    } else {
      UploadSteps(step, s);
    }
  }

  // ----- Whole runs

  predicate EnabledRun(steps: seq<Step>, s: State)
    decreases |steps|
  {
    steps != [] ==> Enabled(steps[0], s) && EnabledRun(steps[1..], Perform(steps[0], s))
  }

  function PerformAll(steps: seq<Step>, s: State): State
    decreases |steps|
  {
    if steps == [] then s else PerformAll(steps[1..], Perform(steps[0], s))
  }

  lemma {:induction false} InvRun(steps: seq<Step>, s: State)
    requires Inv(s) && EnabledRun(steps, s)
    ensures Inv(PerformAll(steps, s))
    decreases |steps|
  {
    if steps != [] {
      InvStep(steps[0], s);
      InvRun(steps[1..], Perform(steps[0], s));
    }
  }

  lemma {:induction false} RunConcat(a: seq<Step>, b: seq<Step>, s: State)
    requires EnabledRun(a, s) && EnabledRun(b, PerformAll(a, s))
    ensures EnabledRun(a + b, s) && PerformAll(a + b, s) == PerformAll(b, PerformAll(a, s))
    decreases |a|
  {
    if a == [] {
      assert a + b == b;
    } else {
      RunConcat(a[1..], b, Perform(a[0], s));
      assert (a + b)[1..] == a[1..] + b;
    }
  }

  // ----- What lasts

  // An upload of this content committed recording r.
  ghost predicate CreatedFor(s: State, r: RecordingId, hash: Hash) {
    && r in s.inserter && s.inserter[r] in s.uploads
    && Owned(s.uploads[s.inserter[r]].phase) == Some(r)
    && s.uploads[s.inserter[r]].hash == hash
  }

  // A commit is not undone by what becomes of the upload.
  lemma OwnedStays(step: Step, s: State, v: UploadId)
    requires Enabled(step, s) && v in s.uploads && Owned(s.uploads[v].phase).Some?
    ensures
      var t := Perform(step, s);
      && v in t.uploads && Owned(t.uploads[v].phase) == Owned(s.uploads[v].phase)
      && t.uploads[v].path == s.uploads[v].path && t.uploads[v].hash == s.uploads[v].hash
  {
    if Rephasing(step) && step.u == v {
      OwnedNext(step, s.uploads[v].phase, Known(s, s.uploads[v].hash));
    } else if step.Discard? || step.FailPlace? || step.Place? || step.RemoveOwn? {
      DiskStepIs(step, s);
    }
  }

  lemma OwnedNext(step: Step, p: Phase, known: bool)
    requires step.Answer? || step.Break? || step.Lookup? || step.FailLookup? || step.LookAgain? || step.Resolve?
    requires Owned(p).Some? ==> step.Answer? || step.Break?
    ensures Owned(p).Some? && (step.Answer? ==> p.Closing?) ==> Owned(NextPhase(step, p, known)) == Owned(p)
  {
  }

  lemma InserterKept(step: Step, s: State, r: RecordingId)
    requires Enabled(step, s) && r in s.inserter
    ensures r in Perform(step, s).inserter && Perform(step, s).inserter[r] == s.inserter[r]
  {
  }

  lemma CreatedStays(step: Step, s: State)
    requires Enabled(step, s)
    ensures forall r, h :: CreatedFor(s, r, h) ==> CreatedFor(Perform(step, s), r, h)
    ensures forall r, p :: CreatedBy(s, r, p) ==> CreatedBy(Perform(step, s), r, p)
  {
    var t := Perform(step, s);
    forall r | r in s.inserter && s.inserter[r] in s.uploads && Owned(s.uploads[s.inserter[r]].phase) == Some(r)
      ensures
        && r in t.inserter && t.inserter[r] == s.inserter[r]
        && t.inserter[r] in t.uploads && Owned(t.uploads[t.inserter[r]].phase) == Some(r)
        && t.uploads[t.inserter[r]].path == s.uploads[s.inserter[r]].path
        && t.uploads[t.inserter[r]].hash == s.uploads[s.inserter[r]].hash
    {
      InserterKept(step, s, r);
      OwnedStays(step, s, s.inserter[r]);
    }
  }

  lemma DeletedStays(step: Step, s: State)
    requires Enabled(step, s)
    ensures forall r, p :: Deleted(s, r, p) ==> Deleted(Perform(step, s), r, p)
  {
    var t := Perform(step, s);
    forall d | d in s.deletions && s.deletions[d].Committed()
      ensures d in t.deletions && t.deletions[d].Committed()
      ensures t.deletions[d].recording == s.deletions[d].recording && t.deletions[d].path == s.deletions[d].path
    {
    }
    forall r, p | Deleted(s, r, p) ensures Deleted(t, r, p) {
      var d :| d in s.deletions && s.deletions[d].Committed() && s.deletions[d].recording == r && s.deletions[d].path == p;
      assert d in t.deletions && t.deletions[d].Committed();
    }
  }

  // A recording that was committed is there until a deletion of it commits.
  lemma GoneIsDeleted(s: State, r: RecordingId, path: Path)
    requires Inv(s) && CreatedBy(s, r, path)
    ensures r !in s.recordings <==> Deleted(s, r, path)
  {
    assert UploadInv(s, s.inserter[r]);
    if Deleted(s, r, path) {
      RecordedIsNotDeleted(s, r, path);
    }
  }

  // Some state of the run has the content recorded.
  predicate KnownDuring(steps: seq<Step>, s: State, hash: Hash)
    decreases |steps|
  {
    Known(s, hash) || (steps != [] && KnownDuring(steps[1..], Perform(steps[0], s), hash))
  }

  lemma {:induction false} KnownConcat(a: seq<Step>, b: seq<Step>, s: State, hash: Hash)
    ensures KnownDuring(a + b, s, hash) <==> KnownDuring(a, s, hash) || KnownDuring(b, PerformAll(a, s), hash)
    decreases |a|
  {
    if a == [] {
      assert a + b == b;
    } else {
      KnownConcat(a[1..], b, Perform(a[0], s), hash);
      assert (a + b)[1..] == a[1..] + b;
    }
  }

  lemma {:induction false} KnownInTheEnd(steps: seq<Step>, s: State, hash: Hash)
    ensures Known(PerformAll(steps, s), hash) ==> KnownDuring(steps, s, hash)
    decreases |steps|
  {
    if steps != [] {
      KnownInTheEnd(steps[1..], Perform(steps[0], s), hash);
    }
  }

  // ----- Disk and table

  function Recorded(s: State): set<Path> {
    set r | r in s.recordings :: s.recordings[r].path
  }

  function Uploading(s: State): set<Path> {
    set u | u in s.uploads && OnDisk(s.uploads[u].phase) :: s.uploads[u].path
  }

  // Files removed by uploads that were cut off after their commit.
  function Lost(s: State): set<Path> {
    set u | u in s.uploads && Dropped(s.uploads[u].phase) :: s.uploads[u].path
  }

  // Files of deletions that have committed and not removed them, yet or at all.
  function Unremoved(s: State): set<Path> {
    set d | d in s.deletions && (s.deletions[d].Removing? || s.deletions[d].Stranded?) :: s.deletions[d].path
  }

  function Staging(s: State): set<Path> {
    set u | u in s.uploads && PartOnDisk(s.uploads[u].phase) :: s.uploads[u].path
  }

  ghost predicate Quiet(s: State) {
    && (forall u :: u in s.uploads ==> s.uploads[u].phase.Over?)
    && (forall d :: d in s.deletions ==> s.deletions[d].Settled())
  }

  lemma RecordedOnDiskIff(s: State, r: RecordingId)
    requires Inv(s) && r in s.recordings
    ensures r in s.inserter && s.inserter[r] in s.uploads && s.uploads[s.inserter[r]].path == s.recordings[r].path
    ensures s.recordings[r].path in s.files <==> !Dropped(s.uploads[s.inserter[r]].phase)
  {
    assert RecordingInv(s, r) && UploadInv(s, s.inserter[r]);
    forall d | d in s.deletions && s.deletions[d].Removed? ensures s.deletions[d].recording != r {
      assert DeletionInv(s, d);
    }
  }

  lemma OwnPath(s: State, u: UploadId, v: UploadId)
    requires Inv(s) && u in s.uploads && v in s.uploads && s.uploads[u].path == s.uploads[v].path
    ensures u == v
  {
    assert UploadInv(s, u) && UploadInv(s, v);
  }

  lemma FileAccounted(s: State, p: Path)
    requires Inv(s) && p in s.files
    ensures p in Recorded(s) + Uploading(s) + Unremoved(s)
  {
    var u := s.owner[p];
    assert UploadInv(s, u);
    if !OnDisk(s.uploads[u].phase) {
      var r := Owned(s.uploads[u].phase).value;
      if r in s.recordings {
        assert s.recordings[r].path in Recorded(s);
      } else {
        var d :| d in s.deletions && s.deletions[d].Committed() && s.deletions[d].recording == r && s.deletions[d].path == p;
        assert s.deletions[d].path in Unremoved(s);
      }
    }
  }

  lemma FilesAccounted(s: State)
    requires Inv(s)
    ensures Recorded(s) - Lost(s) + Uploading(s) <= s.files <= Recorded(s) + Uploading(s) + Unremoved(s)
    ensures s.files !! Lost(s)
  {
    forall p | p in Recorded(s) - Lost(s) ensures p in s.files {
      var r :| r in s.recordings && s.recordings[r].path == p;
      RecordedOnDiskIff(s, r);
    }
    forall u | u in s.uploads ensures HasFile(s, s.uploads[u]) <==> s.uploads[u].path in s.files {
      assert UploadInv(s, u);
    }
    forall p | p in s.files ensures p in Recorded(s) + Uploading(s) + Unremoved(s) {
      FileAccounted(s, p);
    }
  }

  lemma PartsAccounted(s: State)
    requires Inv(s)
    ensures s.parts == Staging(s)
  {
    forall u | u in s.uploads ensures s.uploads[u].path in s.parts <==> PartOnDisk(s.uploads[u].phase) {
      assert UploadInv(s, u);
    }
    forall p | p in s.parts ensures p in Staging(s) {
      assert s.uploads[s.owner[p]].path == p;
    }
  }

  lemma QuietParts(s: State)
    requires Inv(s) && Quiet(s)
    ensures s.parts == {} <==> forall u :: u in s.uploads ==> s.uploads[u].phase != Over(LookupFailed)
  {
    PartsAccounted(s);
    forall u | u in s.uploads && s.uploads[u].phase == Over(LookupFailed) ensures s.uploads[u].path in Staging(s) {
    }
  }

  // ----- What cuts after a commit do

  // Every upload that was cut off after its commit has had its recording deleted.
  ghost predicate CutUploadsDeleted(s: State) {
    forall u :: u in s.uploads && Dropped(s.uploads[u].phase) ==>
      Deleted(s, s.uploads[u].phase.outcome.recording, s.uploads[u].path)
  }

  // Another request has removed the file a cut deletion left: another deletion
  // of the recording, or the upload of it, itself cut off.
  ghost predicate Swept(s: State, r: RecordingId, path: Path) {
    Erased(s, r, path) || (r in s.inserter && In(s, s.inserter[r], Over(Unanswered(r))))
  }

  ghost predicate CutDeletionsSwept(s: State) {
    forall d :: d in s.deletions && s.deletions[d].Stranded? ==> Swept(s, s.deletions[d].recording, s.deletions[d].path)
  }

  lemma RecordedIsNotDeleted(s: State, r: RecordingId, path: Path)
    requires Inv(s) && Deleted(s, r, path)
    ensures r !in s.recordings
  {
    var d :| d in s.deletions && s.deletions[d].Committed() && s.deletions[d].recording == r;
    assert DeletionInv(s, d);
  }

  lemma DroppedFile(s: State, u: UploadId)
    requires Inv(s) && u in s.uploads && Dropped(s.uploads[u].phase)
    ensures
      var r, p := s.uploads[u].phase.outcome.recording, s.uploads[u].path;
      p !in s.files && (Deleted(s, r, p) <==> p !in Recorded(s))
  {
    var r, p := s.uploads[u].phase.outcome.recording, s.uploads[u].path;
    assert UploadInv(s, u);
    if Deleted(s, r, p) {
      RecordedIsNotDeleted(s, r, p);
    }
    forall q | q in s.recordings && s.recordings[q].path == p ensures q == r {
      assert RecordingInv(s, q);
      OwnPath(s, u, s.inserter[q]);
    }
  }

  lemma RecordedFilesExistIff(s: State)
    requires Inv(s)
    ensures Recorded(s) <= s.files <==> CutUploadsDeleted(s)
  {
    forall u | u in s.uploads && Dropped(s.uploads[u].phase)
      ensures
        var r, p := s.uploads[u].phase.outcome.recording, s.uploads[u].path;
        p !in s.files && (Deleted(s, r, p) <==> p !in Recorded(s))
    {
      DroppedFile(s, u);
    }
    forall r | r in s.recordings
      ensures s.recordings[r].path in s.files ||
        exists u :: u in s.uploads && Dropped(s.uploads[u].phase) && s.uploads[u].path == s.recordings[r].path
    {
      RecordedOnDiskIff(s, r);
    }
  }

  lemma StrandedFile(s: State, d: DeletionId)
    requires Inv(s) && d in s.deletions && s.deletions[d].Stranded?
    ensures s.deletions[d].path !in Recorded(s)
    ensures s.deletions[d].path in s.files <==> !Swept(s, s.deletions[d].recording, s.deletions[d].path)
  {
    var r, p := s.deletions[d].recording, s.deletions[d].path;
    assert DeletionInv(s, d) && UploadInv(s, s.inserter[r]);
    forall q | q in s.recordings ensures s.recordings[q].path != p {
      assert RecordingInv(s, q);
      if s.recordings[q].path == p {
        OwnPath(s, s.inserter[q], s.inserter[r]);
      }
    }
  }

  lemma FilesAreRecordedIff(s: State)
    requires Inv(s) && Quiet(s)
    ensures s.files <= Recorded(s) <==> CutDeletionsSwept(s)
  {
    forall d | d in s.deletions && s.deletions[d].Stranded?
      ensures s.deletions[d].path !in Recorded(s)
      ensures s.deletions[d].path in s.files <==> !Swept(s, s.deletions[d].recording, s.deletions[d].path)
    {
      StrandedFile(s, d);
    }
    if CutDeletionsSwept(s) {
      forall p | p in s.files ensures p in Recorded(s) {
        FileAccounted(s, p);
      }
    }
  }

  // In every state of every interleaving the files on disk are those recorded
  // and those of requests under way, but for what requests cut off after their
  // commit took or left: a file removed though its row was committed, or kept
  // though its row was deleted. Every recorded file is there exactly when the
  // recordings of all cut uploads have been deleted; with nothing under way,
  // nothing else is there exactly when another request has removed what each cut
  // deletion left. A staged part is left over exactly by a failed first lookup.
  lemma {:induction false} DiskAgreesWithDatabase(steps: seq<Step>)
    requires EnabledRun(steps, EMPTY)
    ensures
      var s := PerformAll(steps, EMPTY);
      && Recorded(s) - Lost(s) + Uploading(s) <= s.files <= Recorded(s) + Uploading(s) + Unremoved(s)
      && s.files !! Lost(s)
      && (Recorded(s) <= s.files <==> CutUploadsDeleted(s))
      && s.parts == Staging(s)
      && (Quiet(s) ==>
            && (s.files <= Recorded(s) <==> CutDeletionsSwept(s))
            && (s.parts == {} <==> forall u :: u in s.uploads ==> s.uploads[u].phase != Over(LookupFailed)))
  {
    InvRun(steps, EMPTY);
    var s := PerformAll(steps, EMPTY);
    FilesAccounted(s);
    PartsAccounted(s);
    RecordedFilesExistIff(s);
    if Quiet(s) {
      FilesAreRecordedIff(s);
      QuietParts(s);
    }
  }

  // No request was cut off after its commit.
  predicate Uncut(step: Step, s: State) {
    match step
    case Break(u) => u in s.uploads ==> Owned(s.uploads[u].phase) == None
    case CutDelete(_) => false
    case _ => true
  }

  predicate UncutRun(steps: seq<Step>, s: State)
    decreases |steps|
  {
    steps != [] ==> Uncut(steps[0], s) && UncutRun(steps[1..], Perform(steps[0], s))
  }

  ghost predicate NoneCut(s: State) {
    && (forall u :: u in s.uploads ==> Kept(s.uploads[u].phase))
    && (forall d :: d in s.deletions ==> !s.deletions[d].Stranded?)
  }

  predicate Kept(p: Phase) {
    Owned(p).Some? ==> p.Closing? || (p.Over? && p.outcome.Created?)
  }

  lemma KeptStep(step: Step, s: State, u: UploadId)
    requires Enabled(step, s) && Uncut(step, s) && u in Perform(step, s).uploads
    requires u in s.uploads ==> Kept(s.uploads[u].phase) && Fair(s.uploads[u].phase)
    ensures Kept(Perform(step, s).uploads[u].phase)
  {
    if Rephasing(step) && step.u == u {
      KeptPhase(step, s, Known(s, s.uploads[u].hash));
    } else if step.Discard? || step.FailPlace? || step.Place? || step.RemoveOwn? {
      DiskStepIs(step, s);
    }
  }

  lemma KeptPhase(step: Step, s: State, known: bool)
    requires Enabled(step, s) && Uncut(step, s) && Rephasing(step) && step.u in s.uploads
    requires Kept(s.uploads[step.u].phase) && Fair(s.uploads[step.u].phase)
    ensures Kept(NextPhase(step, s.uploads[step.u].phase, known))
  {
  }

  lemma NoneCutStep(step: Step, s: State)
    requires Inv(s) && Enabled(step, s) && Uncut(step, s) && NoneCut(s)
    ensures NoneCut(Perform(step, s))
  {
    forall u | u in Perform(step, s).uploads ensures Kept(Perform(step, s).uploads[u].phase) {
      if u in s.uploads {
        assert UploadInv(s, u);
      }
      KeptStep(step, s, u);
    }
    NoneStrandedStep(step, s);
  }

  lemma NoneStrandedStep(step: Step, s: State)
    requires Enabled(step, s) && !step.CutDelete?
    requires forall d :: d in s.deletions ==> !s.deletions[d].Stranded?
    ensures forall d :: d in Perform(step, s).deletions ==> !Perform(step, s).deletions[d].Stranded?
  {
  }

  lemma {:induction false} NoneCutRun(steps: seq<Step>, s: State)
    requires Inv(s) && EnabledRun(steps, s) && UncutRun(steps, s) && NoneCut(s)
    ensures NoneCut(PerformAll(steps, s))
    decreases |steps|
  {
    if steps != [] {
      NoneCutStep(steps[0], s);
      InvStep(steps[0], s);
      NoneCutRun(steps[1..], Perform(steps[0], s));
    }
  }

  // Without such cuts disk and table end up in exact agreement.
  lemma {:induction false} UncutRunsAgree(steps: seq<Step>)
    requires EnabledRun(steps, EMPTY) && UncutRun(steps, EMPTY) && Quiet(PerformAll(steps, EMPTY))
    ensures PerformAll(steps, EMPTY).files == Recorded(PerformAll(steps, EMPTY))
  {
    InvRun(steps, EMPTY);
    NoneCutRun(steps, EMPTY);
    NoneCutAgrees(PerformAll(steps, EMPTY));
  }

  lemma NoneCutAgrees(s: State)
    requires Inv(s) && NoneCut(s) && Quiet(s)
    ensures s.files == Recorded(s)
  {
    RecordedFilesExistIff(s);
    FilesAreRecordedIff(s);
  }

  // A run from the start to s, step by step.
  ghost predicate Reaches(steps: seq<Step>, s: State) {
    EnabledRun(steps, EMPTY) && PerformAll(steps, EMPTY) == s
  }

  lemma OneMore(steps: seq<Step>, s: State, step: Step, t: State) returns (more: seq<Step>)
    requires Reaches(steps, s) && Enabled(step, s) && Perform(step, s) == t
    ensures Reaches(more, t)
  {
    assert [step][1..] == [];
    RunConcat(steps, [step], EMPTY);
    more := steps + [step];
  }

  // One upload of one content, in phase p.
  function Lone(p: Phase, files: set<Path>, parts: set<Path>, recordings: map<RecordingId, Recording>,
                inserter: map<RecordingId, UploadId>, deletions: map<DeletionId, Deletion>): State {
    State(files, parts, recordings, map[0 := Upload(0, 7, p)], deletions, map[0 := 0], inserter)
  }

  const ROW := map[0 := Recording(0, 7)]

  // An upload whose first lookup fails: its part stays, and nothing else.
  lemma FailedLookupLeavesPart() returns (steps: seq<Step>)
    ensures EnabledRun(steps, EMPTY)
    ensures
      var s := PerformAll(steps, EMPTY);
      Quiet(s) && s.recordings == map[] && s.files == {} && s.parts == {0}
  {
    var staged, failed := Lone(Staged, {}, {0}, map[], map[], map[]), Lone(Over(LookupFailed), {}, {0}, map[], map[], map[]);
    steps := OneMore([], EMPTY, Stage(0, 0, 7), staged);
    steps := OneMore(steps, staged, FailLookup(0), failed);
  }

  lemma PlaceLone() returns (steps: seq<Step>)
    ensures Reaches(steps, Lone(Placed, {0}, {}, map[], map[], map[]))
  {
    steps := OneMore([], EMPTY, Stage(0, 0, 7), Lone(Staged, {}, {0}, map[], map[], map[]));
    steps := OneMore(steps, Lone(Staged, {}, {0}, map[], map[], map[]), Lookup(0), Lone(Missed, {}, {0}, map[], map[], map[]));
    steps := OneMore(steps, Lone(Missed, {}, {0}, map[], map[], map[]), Place(0), Lone(Placed, {0}, {}, map[], map[], map[]));
  }

  lemma FlushLone() returns (steps: seq<Step>)
    ensures Reaches(steps, Lone(Inserted(0), {0}, {}, map[], map[0 := 0], map[]))
  {
    var absent := Lone(Absent, {0}, {}, map[], map[], map[]);
    steps := PlaceLone();
    steps := OneMore(steps, Lone(Placed, {0}, {}, map[], map[], map[]), LookAgain(0), absent);
    steps := OneMore(steps, absent, Insert(0, 0), Lone(Inserted(0), {0}, {}, map[], map[0 := 0], map[]));
  }

  lemma CommitLone() returns (steps: seq<Step>)
    ensures Reaches(steps, Lone(Closing(Created(0)), {0}, {}, ROW, map[0 := 0], map[]))
  {
    var inserted := Lone(Inserted(0), {0}, {}, map[], map[0 := 0], map[]);
    steps := FlushLone();
    steps := OneMore(steps, inserted, CommitRow(0), Lone(Closing(Created(0)), {0}, {}, ROW, map[0 := 0], map[]));
  }

  lemma CutLone() returns (steps: seq<Step>)
    ensures Reaches(steps, Lone(Over(Unanswered(0)), {}, {}, ROW, map[0 := 0], map[]))
  {
    var losing := Lone(Losing(Unanswered(0)), {0}, {}, ROW, map[0 := 0], map[]);
    steps := CommitLone();
    steps := OneMore(steps, Lone(Closing(Created(0)), {0}, {}, ROW, map[0 := 0], map[]), Break(0), losing);
    steps := OneMore(steps, losing, RemoveOwn(0), Lone(Over(Unanswered(0)), {}, {}, ROW, map[0 := 0], map[]));
  }

  // An upload cut off while its session closes after the commit: the row stays,
  // its file goes, and the next upload of that content is told that it exists.
  lemma CutUploadLosesFile() returns (steps: seq<Step>)
    ensures EnabledRun(steps, EMPTY)
    ensures
      var s := PerformAll(steps, EMPTY);
      Quiet(s) && Recorded(s) == {0} && s.files == s.parts == {} && In(s, 1, Over(Existing)) && s.uploads[1].hash == 7
  {
    var cut := Lone(Over(Unanswered(0)), {}, {}, ROW, map[0 := 0], map[]);
    var staged := Perform(Stage(1, 1, 7), cut);
    var hit := To(staged, 1, Hit);
    assert Known(staged, 7) by {
      assert staged.recordings[0].hash == 7;
    }
    steps := CutLone();
    steps := OneMore(steps, cut, Stage(1, 1, 7), staged);
    steps := OneMore(steps, staged, Lookup(1), hit);
    steps := OneMore(steps, hit, Discard(1), Perform(Discard(1), hit));
    assert ROW[0].path in Recorded(Perform(Discard(1), hit));
  }

  lemma ReadLone() returns (steps: seq<Step>)
    ensures Reaches(steps, Lone(Over(Created(0)), {0}, {}, ROW, map[0 := 0], map[0 := Read(0, 0)]))
  {
    var done := Lone(Over(Created(0)), {0}, {}, ROW, map[0 := 0], map[]);
    steps := CommitLone();
    steps := OneMore(steps, Lone(Closing(Created(0)), {0}, {}, ROW, map[0 := 0], map[]), Answer(0), done);
    steps := OneMore(steps, done, DeleteRead(0, 0), Lone(Over(Created(0)), {0}, {}, ROW, map[0 := 0], map[0 := Read(0, 0)]));
  }

  // A deletion cut off while its session closes after the commit: the row goes,
  // the file stays.
  lemma CutDeletionStrandsFile() returns (steps: seq<Step>)
    ensures EnabledRun(steps, EMPTY)
    ensures
      var s := PerformAll(steps, EMPTY);
      Quiet(s) && s.recordings == map[] && s.files == {0}
  {
    var read := Lone(Over(Created(0)), {0}, {}, ROW, map[0 := 0], map[0 := Read(0, 0)]);
    var removing := Lone(Over(Created(0)), {0}, {}, map[], map[0 := 0], map[0 := Removing(0, 0)]);
    steps := ReadLone();
    steps := OneMore(steps, read, DeleteCommit(0), removing);
    steps := OneMore(steps, removing, CutDelete(0), Perform(CutDelete(0), removing));
  }

  // ----- Idempotence

  lemma MadeOnce(s: State, r: RecordingId, u: UploadId, v: UploadId)
    requires Inv(s) && u in s.uploads && v in s.uploads
    requires Owned(s.uploads[u].phase) == Owned(s.uploads[v].phase) == Some(r)
    ensures u == v
  {
    assert UploadInv(s, u) && UploadInv(s, v);
  }

  lemma LosersLeaveNothing(s: State, u: UploadId)
    requires Inv(s) && u in s.uploads && s.uploads[u].phase.Over?
    requires !s.uploads[u].phase.outcome.Created? && !s.uploads[u].phase.outcome.LookupFailed?
    ensures s.uploads[u].path !in s.files && s.uploads[u].path !in s.parts
  {
    assert UploadInv(s, u);
  }

  lemma RecordedHasMaker(s: State, r: RecordingId) returns (u: UploadId)
    requires Inv(s) && r in s.recordings
    ensures u in s.uploads && Owned(s.uploads[u].phase) == Some(r)
    ensures s.uploads[u].path == s.recordings[r].path && s.uploads[u].hash == s.recordings[r].hash
    ensures s.uploads[u].phase.Over? ==> s.uploads[u].phase in {Over(Created(r)), Over(Unanswered(r))}
  {
    assert RecordingInv(s, r);
    u := s.inserter[r];
    assert UploadInv(s, u);
  }

  // A hash is recorded once. Every recording was made by one upload of that
  // content and no other; when that upload is over it was told so, or cut off.
  // An upload that was not told "created" leaves no file behind.
  lemma {:induction false} UploadsAreIdempotent(steps: seq<Step>, q: RecordingId, r: RecordingId, u: UploadId, v: UploadId)
    requires EnabledRun(steps, EMPTY)
    ensures
      var s := PerformAll(steps, EMPTY);
      && (q in s.recordings && r in s.recordings && s.recordings[q].hash == s.recordings[r].hash ==> q == r)
      && (r in s.recordings ==> exists w :: w in s.uploads && MakerOf(s, w, r))
      && (u in s.uploads && v in s.uploads && Owned(s.uploads[u].phase) == Owned(s.uploads[v].phase) == Some(r) ==> u == v)
      && (In(s, u, Over(Existing)) || In(s, u, Over(Failed)) || In(s, u, Over(Unanswered(r))) ==>
            s.uploads[u].path !in s.files && s.uploads[u].path !in s.parts)
  {
    InvRun(steps, EMPTY);
    var s := PerformAll(steps, EMPTY);
    if r in s.recordings {
      var w := RecordedHasMaker(s, r);
      assert MakerOf(s, w, r);
    }
    if u in s.uploads && v in s.uploads && Owned(s.uploads[u].phase) == Owned(s.uploads[v].phase) == Some(r) {
      MadeOnce(s, r, u, v);
    }
    if In(s, u, Over(Existing)) || In(s, u, Over(Failed)) || In(s, u, Over(Unanswered(r))) {
      LosersLeaveNothing(s, u);
    }
  }

  predicate MakerOf(s: State, w: UploadId, r: RecordingId)
    requires w in s.uploads && r in s.recordings
  {
    && Owned(s.uploads[w].phase) == Some(r)
    && s.uploads[w].path == s.recordings[r].path && s.uploads[w].hash == s.recordings[r].hash
    && (s.uploads[w].phase.Over? ==> s.uploads[w].phase in {Over(Created(r)), Over(Unanswered(r))})
  }
}
