/** What becomes of assets that the status rules leave behind: one that is processing for nobody, one
    that an upload took out of the trash's reach, and a transcription that another job's failure
    stops. Each has a run from the empty world. */
module JobAssetRuns {
  import opened Common
  import opened Strings
  import opened Jobs
  import opened JobTable
  import opened JobAssets
  import JobRuns

  // ---------------------------------------------------------------------------
  // An asset that is processing for nobody
  // ---------------------------------------------------------------------------

  ghost predicate Stuck(w: World, a: string) {
    a in w.assets && !w.assets[a].deleted && w.assets[a].status == PROCESSING && !Working(w.jobs, a)
  }

  /** The step neither trashes the asset nor fails a job on it for good. */
  ghost predicate LeavesAlone(w: World, x: Action, a: string)
    requires JobAssets.Possible(w, x)
  {
    x != Trash(a) && !Hits(w.jobs, Gone(w, x), a)
  }

  lemma StuckRow(t: Table, k: nat, r: Record, a: string)
    requires !Working(t, a) && !Works(r.job, a)
    ensures !Working(t[k := r], a)
  {
    var u := t[k := r];
    forall i | i in u
      ensures !Works(u[i].job, a)
    {
      assert i != k ==> i in t && u[i] == t[i];
    }
  }

  lemma StuckJobs(t: Table, u: Table, gone: set<nat>, a: string)
    requires FailsJobs(t, u, gone) && !Working(t, a)
    ensures !Working(u, a)
  {
    forall k | k in u
      ensures !Works(u[k].job, a)
    {
      assert Fate(t[k].job, u[k].job, k in gone) && !Works(t[k].job, a);
    }
  }

  lemma StuckRowStep(w: World, x: Action, a: string)
    requires Linked(w) && Stuck(w, a) && JobAssets.Possible(w, x) && RowStep(x)
    ensures Stuck(JobAssets.Next(w, x), a)
  {
    var u := JobAssets.Next(w, x);
    assert AssetOk(w.assets[a]);
    if u != w {
      assert x.id in w.jobs ==> !Works(w.jobs[x.id].job, a);
      StuckRow(w.jobs, x.id, u.jobs[x.id], a);
    }
  }

  lemma StuckPurge(w: World, x: Action, a: string)
    requires Stuck(w, a) && x.Purge?
    ensures Stuck(JobAssets.Next(w, x), a)
  {
    if PurgeDone(w, x.id, x.worker, x.now, x.same).Some? {
      PurgeKeepsWork(w, x, a);
      StillWorking(w.jobs, JobAssets.Next(w, x).jobs, a);
    }
  }

  lemma StuckStep(w: World, x: Action, a: string)
    requires Inv(w) && Stuck(w, a) && JobAssets.Possible(w, x) && LeavesAlone(w, x, a)
    ensures Stuck(JobAssets.Next(w, x), a)
  {
    if x.Claim? {
      ClaimFails(w, x);
      StuckJobs(w.jobs, JobAssets.Next(w, x).jobs, Gone(w, x), a);
    } else if x.Fail? {
      FailFails(w, x);
      StuckJobs(w.jobs, JobAssets.Next(w, x).jobs, Gone(w, x), a);
    } else if x.Purge? {
      StuckPurge(w, x, a);
    } else if RowStep(x) {
      StuckRowStep(w, x, a);
    } else {
      assert AssetOk(w.assets[a]);
    }
  }

  ghost predicate LeftAlone(w: World, run: seq<Action>, a: string)
    requires JobAssets.IsRun(w, run)
    decreases |run|
  {
    run == [] || (LeavesAlone(w, run[0], a) && LeftAlone(JobAssets.Next(w, run[0]), run[1..], a))
  }

  /** Nothing else brings it out of that state: requests to transcribe it and to retry its failed
      transcriptions are refused for ever. */
  lemma {:induction false} StuckForever(w: World, run: seq<Action>, a: string)
    requires Inv(w) && Stuck(w, a) && JobAssets.IsRun(w, run) && LeftAlone(w, run, a)
    ensures Stuck(JobAssets.Run(w, run), a)
    decreases |run|
  {
    if run != [] {
      JobAssets.NextKeepsInv(w, run[0]);
      StuckStep(w, run[0], a);
      StuckForever(JobAssets.Next(w, run[0]), run[1..], a);
    }
  }

  // ---------------------------------------------------------------------------
  // An asset the trash has lost
  // ---------------------------------------------------------------------------

  /** Deleted, and yet neither in the trash nor being purged. */
  predicate Astray(s: Asset) { s.deleted && s.status !in {TRASHED, PURGING} }

  ghost predicate NoneAstray(w: World) { forall a :: a in w.assets ==> !Astray(w.assets[a]) }

  /** An upload session of a deleted asset ends. */
  predicate EndsUploadInTrash(w: World, x: Action) {
    && (x.FinishUpload? || x.FailUpload?) && x.asset in w.assets && w.assets[x.asset].deleted && w.assets[x.asset].open
    && (x.FinishUpload? ==> Uploaded(w, x.asset, x.id, x.now).Some?)
  }

  /** Exactly an upload that ends while its asset is deleted makes an asset go astray. */
  lemma AstrayExactlyByUpload(w: World, x: Action)
    requires Linked(w) && NoneAstray(w) && JobAssets.Possible(w, x)
    ensures NoneAstray(JobAssets.Next(w, x)) <==> !EndsUploadInTrash(w, x)
  {
    var u := JobAssets.Next(w, x);
    if EndsUploadInTrash(w, x) {
      assert x.asset in u.assets && Astray(u.assets[x.asset]);
    } else {
      forall a | a in u.assets
        ensures !Astray(u.assets[a])
      {
        assert a in w.assets ==> AssetOk(w.assets[a]) && !Astray(w.assets[a]);
      }
    }
  }

  lemma AstrayStep(w: World, x: Action, a: string)
    requires Linked(w) && a in w.assets && Astray(w.assets[a]) && JobAssets.Possible(w, x)
    ensures a in JobAssets.Next(w, x).assets && JobAssets.Next(w, x).assets[a] == w.assets[a]
  {
    assert AssetOk(w.assets[a]);
  }

  /** And there it stays in every continuation: it can neither be restored nor purged, and nothing
      else changes it either. */
  lemma {:induction false} AstrayForever(w: World, run: seq<Action>, a: string)
    requires Inv(w) && a in w.assets && Astray(w.assets[a]) && JobAssets.IsRun(w, run)
    ensures a in JobAssets.Run(w, run).assets && JobAssets.Run(w, run).assets[a] == w.assets[a]
    decreases |run|
  {
    if run != [] {
      JobAssets.NextKeepsInv(w, run[0]);
      AstrayStep(w, run[0], a);
      AstrayForever(JobAssets.Next(w, run[0]), run[1..], a);
    }
  }

  // ---------------------------------------------------------------------------
  // Runs from the empty world
  // ---------------------------------------------------------------------------

  ghost predicate Leads(w: World, x: Action, u: World) { JobAssets.Possible(w, x) && JobAssets.Next(w, x) == u }

  ghost predicate Reaches(w: World, run: seq<Action>, u: World) {
    JobAssets.IsRun(w, run) && JobAssets.Run(w, run) == u
  }

  lemma StepFirst(w: World, x: Action, m: World, rest: seq<Action>, u: World)
    requires Leads(w, x, m) && Reaches(m, rest, u)
    ensures Reaches(w, [x] + rest, u)
  {
    assert ([x] + rest)[1..] == rest;
  }

  lemma {:induction false} ReachesThen(w: World, a: seq<Action>, v: World, b: seq<Action>, u: World)
    requires Reaches(w, a, v) && Reaches(v, b, u)
    ensures Reaches(w, a + b, u)
    decreases |a|
  {
    if a == [] {
      assert a + b == b;
    } else {
      var m := JobAssets.Next(w, a[0]);
      ReachesThen(m, a[1..], v, b, u);
      StepFirst(w, a[0], m, a[1..] + b, u);
      assert [a[0]] + (a[1..] + b) == a + b;
    }
  }

  lemma ThreeSteps(w: World, x: Action, w1: World, y: Action, w2: World, z: Action, w3: World)
    requires Leads(w, x, w1) && Leads(w1, y, w2) && Leads(w2, z, w3)
    ensures Reaches(w, [x, y, z], w3)
  {
    assert Reaches(w3, [], w3);
    StepFirst(w2, z, w3, [], w3);
    StepFirst(w1, y, w2, [z] + [], w3);
    StepFirst(w, x, w1, [y] + ([z] + []), w3);
    assert [x] + ([y] + ([z] + [])) == [x, y, z];
  }

  const EMPTY: World := World(map[], map[])

  function AssetWith(status: string, open: bool, original: bool, transcript: bool): map<string, Asset> {
    map["a" := Asset("w", status, None, false, open, original, transcript)]
  }

  function Binned(before: string, open: bool, original: bool): map<string, Asset> {
    map["a" := Asset("w", TRASHED, Some(before), true, open, original, false)]
  }

  const WAVE: Record := FreshJob(9, "w", Some("a"), WAVEFORM, 3, 50)
  const FIRST: Record := FreshJob(1, "w", Some("a"), TRANSCRIBE, 1, 100)
  const AGAIN: Record := FreshJob(3, "w", Some("a"), TRANSCRIBE, 1, 300)
  const CORRECTION: Record := FreshJob(2, "w", Some("a"), CORRECT, 1, 300)

  /** A fresh job after its lease of 50 was granted, and then after its success or its last failure. */
  function LeasedOnce(r: Record, worker: string, now: Time): Record {
    Record(Leased(r.job, worker, now, 50), map[1 := Attempt(worker, now, None)])
  }

  function Closed(r: Record, f: Jobs.Finish): map<nat, Attempt>
    requires 1 in r.ledger
  {
    r.ledger[1 := r.ledger[1].(finish := Some(f))]
  }

  function FailedLast(r: Record, now: Time): Record
    requires 1 in r.ledger
  {
    Record(r.job.(state := Failed, leaseOwner := None, leaseExpiresAt := None,
                  lastErrorCode := Some("internal_error"), updatedAt := now),
           Closed(r, Jobs.Finish.Finish(Failure, Some("internal_error"), now)))
  }

  function SucceededOnce(r: Record, now: Time, revision: string): Record
    requires 1 in r.ledger
  {
    Record(r.job.(state := Succeeded, leaseOwner := None, leaseExpiresAt := None, lastErrorCode := None,
                  resultRevisionId := Some(revision), updatedAt := now),
           Closed(r, Jobs.Finish.Finish(Success, None, now)))
  }

  /** A job just created, with one attempt. */
  predicate Young(r: Record, id: nat, kind: string, since: Time) { r == FreshJob(id, "w", Some("a"), kind, 1, since) }

  lemma WorkersAreValid()
    ensures ValidWorker("t") && ValidWorker("c")
  {
    assert "t"[1..] == "" && "c"[1..] == "";
    assert Utf8Length("") == 0;
  }

  lemma YoungIsLeased(r: Record, id: nat, kind: string, since: Time, worker: string, now: Time)
    requires Young(r, id, kind, since)
    ensures Granted(r, worker, now, 50) == Ok(LeasedOnce(r, worker, now))
  {}

  lemma ClaimOne(w: World, kind: string, worker: string, now: Time, since: Time, id: nat)
    requires id in w.jobs && Young(w.jobs[id], id, kind, since) && since <= now
    requires forall k :: k in w.jobs && k != id ==> !Due(w.jobs[k].job, kind, now)
    ensures Leads(w, Claim(kind, worker, now, 50, {}, Some(id)),
                  w.(jobs := w.jobs[id := LeasedOnce(w.jobs[id], worker, now)]))
  {
    var x := Claim(kind, worker, now, 50, {}, Some(id));
    YoungIsLeased(w.jobs[id], id, kind, since, worker, now);
    assert Picks(w.jobs, kind, now, {}, id);
    assert Gone(w, x) == {};
    assert FailAssets(w.assets, w.jobs, {}) == w.assets;
    assert GiveUpAll(w.jobs, {}, now) == w.jobs;
  }

  lemma LastFailure(w: World, r: Record, id: nat, kind: string, worker: string, since: Time, at: Time, now: Time)
    requires Young(r, id, kind, since) && id in w.jobs && w.jobs[id] == LeasedOnce(r, worker, at)
    requires ValidWorker(worker) && ZERO_TIME < now < at + 50 && "a" in w.assets
    ensures Leads(w, Fail(id, worker, now, "internal_error", 1),
                  World(w.jobs[id := FailedLast(w.jobs[id], now)],
                        if w.assets["a"].status == PROCESSING then WithStatus(w.assets, "a", FAILED) else w.assets))
  {
    assert FailedOnce(w.jobs, id, worker, now, "internal_error", 1) == Ok(w.jobs[id := FailedLast(w.jobs[id], now)]);
    var x := Fail(id, worker, now, "internal_error", 1);
    assert Gone(w, x) == {id} && Hits(w.jobs, {id}, "a");
    assert FailAssets(w.assets, w.jobs, {id})
           == if w.assets["a"].status == PROCESSING then WithStatus(w.assets, "a", FAILED) else w.assets;
  }

  // --- the upload, which all three share ----------------------------------------

  const CREATED: World := World(map[], AssetWith(DRAFT, false, false, false))
  const OPENED: World := World(map[], AssetWith(UPLOADING, true, false, false))
  const STORED: World := World(map[9 := WAVE], AssetWith(READY, false, true, false))
  const STARTED: World := World(map[9 := WAVE, 1 := FIRST], AssetWith(PROCESSING, false, true, false))
  const TAKEN: World :=
    World(map[9 := WAVE, 1 := LeasedOnce(FIRST, "t", 200)], AssetWith(PROCESSING, false, true, false))

  lemma UploadOpens()
    ensures Leads(EMPTY, NewAsset("a", "w"), CREATED) && Leads(CREATED, StartUpload("a"), OPENED)
  {}

  lemma UploadEnds()
    ensures Leads(OPENED, FinishUpload("a", 9, 50), STORED)
  {}

  lemma TranscriptionStarts()
    ensures Leads(STORED, Transcribe(1, "w", "a", 1, 100), STARTED)
  {}

  lemma TranscriptionIsTaken()
    ensures Leads(STARTED, Claim(TRANSCRIBE, "t", 200, 50, {}, Some(1)), TAKEN)
  {
    ClaimOne(STARTED, TRANSCRIBE, "t", 200, 100, 1);
    assert STARTED.jobs[1 := LeasedOnce(FIRST, "t", 200)] == TAKEN.jobs;
  }

  /** Create, upload and transcribe. */
  const BEGINNING: seq<Action> := [NewAsset("a", "w")] + [StartUpload("a"), FinishUpload("a", 9, 50),
    Transcribe(1, "w", "a", 1, 100)] + [Claim(TRANSCRIBE, "t", 200, 50, {}, Some(1))]

  lemma ReachesOne(w: World, x: Action, u: World)
    requires Leads(w, x, u)
    ensures Reaches(w, [x], u)
  {
    assert Reaches(u, [], u);
    StepFirst(w, x, u, [], u);
    assert [x] + [] == [x];
  }

  lemma TranscriptionIsReached()
    ensures Reaches(EMPTY, BEGINNING, TAKEN)
  {
    UploadOpens();
    UploadEnds();
    TranscriptionStarts();
    TranscriptionIsTaken();
    var upload := [StartUpload("a"), FinishUpload("a", 9, 50), Transcribe(1, "w", "a", 1, 100)];
    ThreeSteps(CREATED, upload[0], OPENED, upload[1], STORED, upload[2], STARTED);
    StepFirst(EMPTY, NewAsset("a", "w"), CREATED, upload, STARTED);
    ReachesOne(STARTED, Claim(TRANSCRIBE, "t", 200, 50, {}, Some(1)), TAKEN);
    ReachesThen(EMPTY, [NewAsset("a", "w")] + upload, STARTED, [Claim(TRANSCRIBE, "t", 200, 50, {}, Some(1))], TAKEN);
  }

  // --- an upload ends in the trash ----------------------------------------------

  const LOSING: seq<Action> := [NewAsset("a", "w")] + [StartUpload("a"), Trash("a"), FinishUpload("a", 9, 50)]

  const BINNED_UPLOAD: World := World(map[], Binned(UPLOADING, true, false))
  const LOST: World := World(map[9 := WAVE], map["a" := Asset("w", READY, Some(UPLOADING), true, false, true, false)])

  lemma UploadIsLost()
    ensures Leads(OPENED, Trash("a"), BINNED_UPLOAD) && Leads(BINNED_UPLOAD, FinishUpload("a", 9, 50), LOST)
  {}

  /** An asset trashed during its upload goes astray when the upload ends. */
  lemma TrashedUploadGoesAstray()
    ensures Reaches(EMPTY, LOSING, LOST) && Astray(LOST.assets["a"])
  {
    UploadOpens();
    UploadIsLost();
    ThreeSteps(CREATED, StartUpload("a"), OPENED, Trash("a"), BINNED_UPLOAD, FinishUpload("a", 9, 50), LOST);
    StepFirst(EMPTY, NewAsset("a", "w"), CREATED, [StartUpload("a"), Trash("a"), FinishUpload("a", 9, 50)], LOST);
  }

  // --- a transcription fails in the trash ---------------------------------------

  const ABANDONED: seq<Action> := [Trash("a"), Fail(1, "t", 210, "internal_error", 1), Restore("a")]

  const BINNED: World := TAKEN.(assets := Binned(PROCESSING, false, true))
  const GIVEN_UP: World :=
    World(map[9 := WAVE, 1 := FailedLast(LeasedOnce(FIRST, "t", 200), 210)], Binned(PROCESSING, false, true))
  const RESTORED: World := GIVEN_UP.(assets := AssetWith(PROCESSING, false, true, false))

  lemma TrashAndBack()
    ensures Leads(TAKEN, Trash("a"), BINNED) && Leads(GIVEN_UP, Restore("a"), RESTORED)
  {}

  lemma FailsInTrash()
    ensures Leads(BINNED, Fail(1, "t", 210, "internal_error", 1), GIVEN_UP)
  {
    WorkersAreValid();
    LastFailure(BINNED, FIRST, 1, TRANSCRIBE, "t", 100, 200, 210);
    assert BINNED.jobs[1 := FailedLast(BINNED.jobs[1], 210)] == GIVEN_UP.jobs;
  }

  /** The asset comes back as processing with nothing at work on it. */
  lemma RestoredAssetIsStuck()
    ensures Reaches(EMPTY, BEGINNING + ABANDONED, RESTORED) && Stuck(RESTORED, "a")
  {
    TranscriptionIsReached();
    TrashAndBack();
    FailsInTrash();
    ThreeSteps(TAKEN, ABANDONED[0], BINNED, ABANDONED[1], GIVEN_UP, ABANDONED[2], RESTORED);
    ReachesThen(EMPTY, BEGINNING, TAKEN, ABANDONED, RESTORED);
  }

  // --- a correction fails during a second transcription ---------------------------

  const SECOND_ROUND: seq<Action> := [
    Commit(1, "t", 210, "r1"), Transcribe(3, "w", "a", 1, 300), Correct(2, "w", "a", 1, 300)]
  const INTRUSION: seq<Action> := [
    Claim(CORRECT, "c", 400, 50, {}, Some(2)), Fail(2, "c", 410, "internal_error", 1),
    Claim(TRANSCRIBE, "t", 500, 50, {}, Some(3))]

  const DONE: Record := SucceededOnce(LeasedOnce(FIRST, "t", 200), 210, "r1")
  const BUSY: map<string, Asset> := AssetWith(PROCESSING, false, true, true)
  const TRANSCRIBED: World := World(map[9 := WAVE, 1 := DONE], AssetWith(READY, false, true, true))
  const RESTARTED: World := World(map[9 := WAVE, 1 := DONE, 3 := AGAIN], BUSY)
  const BOTH: World := World(map[9 := WAVE, 1 := DONE, 3 := AGAIN, 2 := CORRECTION], BUSY)
  const CORRECTING: World := BOTH.(jobs := BOTH.jobs[2 := LeasedOnce(CORRECTION, "c", 400)])
  const INTRUDED: World :=
    World(CORRECTING.jobs[2 := FailedLast(LeasedOnce(CORRECTION, "c", 400), 410)], AssetWith(FAILED, false, true, true))
  const REFUSED: World := INTRUDED.(jobs := INTRUDED.jobs[3 := LeasedOnce(AGAIN, "t", 500)])

  lemma FirstIsCommitted()
    ensures Leads(TAKEN, Commit(1, "t", 210, "r1"), TRANSCRIBED)
  {
    WorkersAreValid();
    assert Completed(TAKEN.jobs, 1, "t", 210, Some("r1")) == Ok(TAKEN.jobs[1 := DONE]);
    assert TAKEN.jobs[1 := DONE] == TRANSCRIBED.jobs;
  }

  lemma SecondStarts()
    ensures Leads(TRANSCRIBED, Transcribe(3, "w", "a", 1, 300), RESTARTED)
  {}

  lemma CorrectionIsQueued()
    ensures Leads(RESTARTED, Correct(2, "w", "a", 1, 300), BOTH)
  {}

  lemma CorrectionIsTaken()
    ensures Leads(BOTH, Claim(CORRECT, "c", 400, 50, {}, Some(2)), CORRECTING)
  {
    ClaimOne(BOTH, CORRECT, "c", 400, 300, 2);
  }

  lemma CorrectionFails()
    ensures Leads(CORRECTING, Fail(2, "c", 410, "internal_error", 1), INTRUDED)
  {
    WorkersAreValid();
    LastFailure(CORRECTING, CORRECTION, 2, CORRECT, "c", 300, 400, 410);
    assert WithStatus(BUSY, "a", FAILED) == INTRUDED.assets;
  }

  lemma SecondIsTaken()
    ensures Leads(INTRUDED, Claim(TRANSCRIBE, "t", 500, 50, {}, Some(3)), REFUSED)
  {
    ClaimOne(INTRUDED, TRANSCRIBE, "t", 500, 300, 3);
  }

  lemma CommitIsRefused()
    ensures 3 in REFUSED.jobs && OwnsLiveLease(REFUSED.jobs[3].job, "t", 510)
    ensures "a" in REFUSED.assets && !REFUSED.assets["a"].deleted
    ensures Committed(REFUSED, 3, "t", 510, "r2") == Err(InvalidCommit)
  {
    WorkersAreValid();
    assert Completed(REFUSED.jobs, 3, "t", 510, Some("r2")).Ok?;
  }

  lemma SecondTranscriptionIsReached()
    ensures Reaches(EMPTY, BEGINNING + SECOND_ROUND, BOTH)
  {
    TranscriptionIsReached();
    FirstIsCommitted();
    SecondStarts();
    CorrectionIsQueued();
    ThreeSteps(TAKEN, SECOND_ROUND[0], TRANSCRIBED, SECOND_ROUND[1], RESTARTED, SECOND_ROUND[2], BOTH);
    ReachesThen(EMPTY, BEGINNING, TAKEN, SECOND_ROUND, BOTH);
  }

  /** The transcription still runs, its worker holds the lease, and yet its commit is refused. */
  lemma FailedCorrectionStopsTranscription()
    ensures Reaches(EMPTY, BEGINNING + SECOND_ROUND + INTRUSION, REFUSED)
    ensures 3 in REFUSED.jobs && OwnsLiveLease(REFUSED.jobs[3].job, "t", 510)
    ensures "a" in REFUSED.assets && !REFUSED.assets["a"].deleted
    ensures Committed(REFUSED, 3, "t", 510, "r2") == Err(InvalidCommit)
  {
    SecondTranscriptionIsReached();
    CorrectionIsTaken();
    CorrectionFails();
    SecondIsTaken();
    ThreeSteps(BOTH, INTRUSION[0], CORRECTING, INTRUSION[1], INTRUDED, INTRUSION[2], REFUSED);
    ReachesThen(EMPTY, BEGINNING + SECOND_ROUND, BOTH, INTRUSION, REFUSED);
    CommitIsRefused();
  }

}
