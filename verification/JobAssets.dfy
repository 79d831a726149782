/** Jobs and the status of their assets, from the creation of an asset to its purge. Uploads make an
    asset ready or failed, a transcription makes it processing and its commit ready again, and a job
    that fails for good makes it failed; trashing remembers the status and restoring brings it back.
    Sources: the repositories under internal/asset, internal/upload, internal/job,
    internal/transcription, internal/operations and internal/assetpurge. */
module JobAssets {
  import opened Common
  import opened Jobs
  import opened JobTable
  import JobRuns

  const DRAFT := "draft"
  const UPLOADING := "uploading"
  const READY := "ready"
  const PROCESSING := "processing"
  const FAILED := "failed"
  const TRASHED := "trashed"
  const PURGING := "purging"

  /** A row of assets: status_before_trash, whether deleted_at is set, and whether an upload session
      is open, an original object stored and a transcript committed. */
  datatype Asset = Asset(
    workspaceId: string, status: string, before: Option<string>, deleted: bool, open: bool, original: bool,
    transcript: bool)

  datatype World = World(jobs: Table, assets: map<string, Asset>)

  datatype Action =
    | NewAsset(asset: string, workspaceId: string)
    | StartUpload(asset: string)
    | FinishUpload(asset: string, id: nat, now: Time)
    | FailUpload(asset: string)
    | Transcribe(id: nat, workspaceId: string, asset: string, maxAttempts: nat, now: Time)
    | Correct(id: nat, workspaceId: string, asset: string, maxAttempts: nat, now: Time)
    | Claim(kind: string, worker: string, now: Time, duration: int, locked: set<nat>, chosen: Option<nat>)
    | Commit(id: nat, worker: string, now: Time, revision: string)
    | Finish(id: nat, worker: string, now: Time, result: Option<string>)
    | Fail(id: nat, worker: string, now: Time, errorCode: string, retryDelay: int)
    | Retry(id: nat, workspaceId: string, now: Time)
    | Trash(asset: string)
    | Restore(asset: string)
    | RequestPurge(id: nat, asset: string, now: Time)
    | Purge(id: nat, worker: string, now: Time, same: bool)

  // ---------------------------------------------------------------------------
  // The steps
  // ---------------------------------------------------------------------------

  /** Transcriptions end by Commit, purges by Purge and the other kinds by Finish. */
  ghost predicate Possible(w: World, x: Action) {
    match x
    case Claim(kind, worker, now, duration, locked, chosen) =>
      JobRuns.Possible(w.jobs, JobRuns.Claim(kind, worker, now, duration, locked, chosen))
    case Commit(id, _, _, _) => id in w.jobs ==> w.jobs[id].job.kind == TRANSCRIBE
    case Finish(id, _, _, _) => id in w.jobs ==> w.jobs[id].job.kind != TRANSCRIBE && w.jobs[id].job.kind != PURGE
    case _ => true
  }

  /** The foreign key from jobs to assets. */
  predicate Refers(assets: map<string, Asset>, assetId: Option<string>, workspaceId: string) {
    assetId.Some? ==> assetId.value in assets && assets[assetId.value].workspaceId == workspaceId
  }

  function WithStatus(assets: map<string, Asset>, a: string, status: string): map<string, Asset>
    requires a in assets
  {
    assets[a := assets[a].(status := status)]
  }

  /** The assets once the jobs in gone have failed for good: those still processing fail too. */
  ghost function FailAssets(assets: map<string, Asset>, jobs: Table, gone: set<nat>): map<string, Asset> {
    map a | a in assets ::
      if assets[a].status == PROCESSING && Hits(jobs, gone, a) then assets[a].(status := FAILED) else assets[a]
  }

  ghost predicate Hits(jobs: Table, gone: set<nat>, a: string) {
    exists k :: k in gone && k in jobs && jobs[k].job.assetId == Some(a)
  }

  /** The jobs a step fails for good. */
  ghost function Gone(w: World, x: Action): set<nat>
    requires Possible(w, x)
  {
    match x
    case Claim(kind, worker, now, duration, locked, chosen) => Spent(w.jobs, kind, now, locked, chosen)
    case Fail(id, worker, now, errorCode, retryDelay) =>
      var r := FailedOnce(w.jobs, id, worker, now, errorCode, retryDelay);
      if r.Ok? && r.value[id].job.state.Failed? then {id} else {}
    case _ => {}
  }

  function Created(w: World, id: nat, workspaceId: string, assetId: Option<string>, kind: string, maxAttempts: nat,
                   now: Time): Result<Table, JobError> {
    if !Refers(w.assets, assetId, workspaceId) then Err(NotFound)
    else Inserted(w.jobs, id, workspaceId, assetId, kind, maxAttempts, now)
  }

  datatype CommitError = JobFault(error: JobError) | NoAsset | InvalidCommit

  /** CommitTranscript, as far as the job and the asset decide it. */
  function Committed(w: World, id: nat, worker: string, now: Time, revision: string): Result<World, CommitError> {
    match Completed(w.jobs, id, worker, now, Some(revision))
    case Err(e) => Err(JobFault(e))
    case Ok(jobs) =>
      var a := w.jobs[id].job.assetId;
      if a.None? || a.value !in w.assets || w.assets[a.value].deleted then Err(NoAsset)
      else if w.assets[a.value].status != PROCESSING then Err(InvalidCommit)
      else Ok(World(jobs, w.assets[a.value := w.assets[a.value].(status := READY, transcript := true)]))
  }

  /** The asset row as the retry reads it. */
  function ViewOf(w: World, id: nat, workspaceId: string): Option<AssetView> {
    if id !in w.jobs || w.jobs[id].job.assetId.None? || w.jobs[id].job.assetId.value !in w.assets then None
    else
      var s := w.assets[w.jobs[id].job.assetId.value];
      if s.workspaceId == workspaceId then Some(AssetView(s.status, s.deleted)) else None
  }

  function Retried(w: World, id: nat, workspaceId: string, now: Time): Result<World, JobError> {
    match Requeued(w.jobs, id, workspaceId, ViewOf(w, id, workspaceId), now)
    case Err(e) => Err(e)
    case Ok(jobs) =>
      if w.jobs[id].job.kind != TRANSCRIBE then Ok(w.(jobs := jobs))
      else Ok(World(jobs, WithStatus(w.assets, w.jobs[id].job.assetId.value, PROCESSING)))
  }

  function InTrash(s: Asset): Asset { s.(status := TRASHED, before := Some(s.status), deleted := true) }

  function OutOfTrash(s: Asset): Asset {
    s.(status := if s.before.Some? then s.before.value else DRAFT, before := None, deleted := false)
  }

  /** Upload completion, with the waveform job it queues. The status is set whatever it is. */
  function Uploaded(w: World, a: string, id: nat, now: Time): Option<World> {
    if a !in w.assets || !w.assets[a].open then None
    else match Inserted(w.jobs, id, w.assets[a].workspaceId, Some(a), WAVEFORM, 3, now)
      case Err(_) => None
      case Ok(jobs) => Some(World(jobs, w.assets[a := w.assets[a].(status := READY, open := false, original := true)]))
  }

  predicate NoActiveJob(t: Table, a: string) {
    forall k :: k in t ==> t[k].job.assetId != Some(a) || !Jobs.Active(t[k].job.state)
  }

  function PurgeRequested(w: World, id: nat, a: string, now: Time): Option<World> {
    if a !in w.assets || !w.assets[a].deleted || w.assets[a].status !in {TRASHED, PURGING} || !NoActiveJob(w.jobs, a)
    then None
    else match Inserted(w.jobs, id, w.assets[a].workspaceId, Some(a), PURGE, 10, now)
      case Err(_) => None
      case Ok(jobs) => Some(World(jobs, WithStatus(w.assets, a, PURGING)))
  }

  /** The last transaction of a purge: the asset and its other jobs are deleted. */
  function PurgeDone(w: World, id: nat, worker: string, now: Time, same: bool): Option<World> {
    var r := Purged(w.jobs, id, worker, now);
    if r.Err? || !same then None
    else
      var a := w.jobs[id].job.assetId.value;
      if a !in w.assets || w.assets[a].status != PURGING then None else Some(World(r.value, w.assets - {a}))
  }

  function OrElse(w: World, r: Option<World>): World { if r.Some? then r.value else w }

  ghost function Next(w: World, x: Action): World
    requires Possible(w, x)
  {
    match x
    case NewAsset(a, workspaceId) =>
      if a in w.assets then w
      else w.(assets := w.assets[a := Asset(workspaceId, DRAFT, None, false, false, false, false)])
    case StartUpload(a) =>
      if a !in w.assets || w.assets[a].deleted || w.assets[a].open || w.assets[a].status !in {DRAFT, UPLOADING} then w
      else w.(assets := w.assets[a := w.assets[a].(status := UPLOADING, open := true)])
    case FinishUpload(a, id, now) => OrElse(w, Uploaded(w, a, id, now))
    case FailUpload(a) =>
      if a !in w.assets || !w.assets[a].open then w
      else w.(assets := w.assets[a := w.assets[a].(status := FAILED, open := false)])
    case Transcribe(id, workspaceId, a, maxAttempts, now) =>
      var r := Created(w, id, workspaceId, Some(a), TRANSCRIBE, maxAttempts, now);
      if r.Ok? && w.assets[a].original && !w.assets[a].deleted && w.assets[a].status == READY
      then World(r.value, WithStatus(w.assets, a, PROCESSING)) else w
    case Correct(id, workspaceId, a, maxAttempts, now) =>
      var r := Created(w, id, workspaceId, Some(a), CORRECT, maxAttempts, now);
      if r.Ok? && w.assets[a].transcript && !w.assets[a].deleted then w.(jobs := r.value) else w
    case Claim(kind, worker, now, duration, locked, chosen) =>
      World(Claimed(w.jobs, kind, worker, now, duration, locked, chosen), FailAssets(w.assets, w.jobs, Gone(w, x)))
    case Commit(id, worker, now, revision) =>
      var r := Committed(w, id, worker, now, revision);
      if r.Ok? then r.value else w
    case Finish(id, worker, now, result) =>
      w.(jobs := JobRuns.OrSame(w.jobs, Completed(w.jobs, id, worker, now, result)))
    case Fail(id, worker, now, errorCode, retryDelay) =>
      World(JobRuns.OrSame(w.jobs, FailedOnce(w.jobs, id, worker, now, errorCode, retryDelay)),
            FailAssets(w.assets, w.jobs, Gone(w, x)))
    case Retry(id, workspaceId, now) =>
      var r := Retried(w, id, workspaceId, now);
      if r.Ok? then r.value else w
    case Trash(a) =>
      if a !in w.assets || w.assets[a].deleted then w
      else w.(assets := w.assets[a := InTrash(w.assets[a])])
    case Restore(a) =>
      if a !in w.assets || !w.assets[a].deleted || w.assets[a].status != TRASHED then w
      else w.(assets := w.assets[a := OutOfTrash(w.assets[a])])
    case RequestPurge(id, a, now) => OrElse(w, PurgeRequested(w, id, a, now))
    case Purge(id, worker, now, same) => OrElse(w, PurgeDone(w, id, worker, now, same))
  }

  // ---------------------------------------------------------------------------
  // The invariant
  // ---------------------------------------------------------------------------

  predicate Works(j: Job, a: string) { j.kind == TRANSCRIBE && Jobs.Active(j.state) && j.assetId == Some(a) }

  /** Some transcription of the asset is queued, running or waiting for a retry. */
  ghost predicate Working(t: Table, a: string) { exists k :: k in t && Works(t[k].job, a) }

  ghost predicate Linked(w: World) {
    && (forall k :: k in w.jobs ==> Refers(w.assets, w.jobs[k].job.assetId, w.jobs[k].job.workspaceId))
    && (forall a :: a in w.assets ==> AssetOk(w.assets[a]))
  }

  /** Only an upload that ends in the trash gives a deleted asset another status. */
  predicate AssetOk(s: Asset) {
    && (s.status in {TRASHED, PURGING} ==> s.deleted)
    && (s.deleted ==> s.status in {TRASHED, PURGING, READY, FAILED} && s.before.Some?)
    && (s.before.Some? ==> s.before.value !in {TRASHED, PURGING})
    && (s.open ==> if s.deleted then s.before == Some(UPLOADING) && s.status in {TRASHED, PURGING}
                   else s.status == UPLOADING)
  }

  ghost predicate Inv(w: World) { TableInv(w.jobs) && Linked(w) }

  /** The asset is processing while, and only while, it is being transcribed; in the trash it
      remembers as much. */
  ghost predicate AssetAgrees(t: Table, a: string, s: Asset) {
    && (Working(t, a) ==> if s.deleted then s.before == Some(PROCESSING) else s.status == PROCESSING)
    && (s.status == PROCESSING ==> Working(t, a))
  }

  ghost predicate Agrees(w: World) {
    forall a :: a in w.assets ==> AssetAgrees(w.jobs, a, w.assets[a])
  }

  /** The two steps that break the agreement: a job of another kind fails for good on an asset that
      is being transcribed, and an asset comes back from the trash as processing although its
      transcription has ended there. */
  ghost predicate Interferes(w: World, x: Action)
    requires Possible(w, x)
  {
    if x.Restore? then
      && x.asset in w.assets && w.assets[x.asset].status == TRASHED && w.assets[x.asset].before == Some(PROCESSING)
      && !Working(w.jobs, x.asset)
    else
      exists k :: k in Gone(w, x) && k in w.jobs && w.jobs[k].job.kind != TRANSCRIBE && OnProcessing(w, w.jobs[k].job)
  }

  predicate OnProcessing(w: World, j: Job) {
    j.assetId.Some? && j.assetId.value in w.assets && w.assets[j.assetId.value].status == PROCESSING
  }

  // ---------------------------------------------------------------------------
  // What the steps do to the work on an asset
  // ---------------------------------------------------------------------------

  /** Row k is the same job, on the same asset. */
  predicate SameJob(j: Job, u: Job) {
    u.id == j.id && u.kind == j.kind && u.assetId == j.assetId && u.workspaceId == j.workspaceId
  }

  /** The tables hold the same jobs, apart from a new one, and all that worked on a still do. */
  ghost predicate KeepsWork(t: Table, u: Table, a: string) {
    forall k :: (k in t && Works(t[k].job, a)) <==> (k in u && Works(u[k].job, a))
  }

  lemma StillWorking(t: Table, u: Table, a: string)
    requires KeepsWork(t, u, a)
    ensures Working(t, a) <==> Working(u, a)
  {}

  /** The only job at work on a has stopped. */
  lemma WorkEnds(t: Table, u: Table, k: nat, a: string)
    requires TableInv(t) && k in t && Works(t[k].job, a)
    requires forall i :: i in u && Works(u[i].job, a) ==> i in t && Works(t[i].job, a) && i != k
    ensures !Working(u, a)
  {
    forall i | i in u && Works(u[i].job, a)
      ensures false
    {
      assert SameWork(t[i].job, t[k].job);
    }
  }

  lemma GivenUpJob(r: Record, now: Time)
    requires GivenUp(r, now).Ok?
    ensures GivenUp(r, now).value.job.state.Failed? && SameJob(r.job, GivenUp(r, now).value.job)
  {}

  lemma GrantedJob(r: Record, worker: string, now: Time, duration: int)
    requires Granted(r, worker, now, duration).Ok?
    ensures Granted(r, worker, now, duration).value.job.state.Running?
            && SameJob(r.job, Granted(r, worker, now, duration).value.job)
  {}

  /** The same job, which has failed for good or is as active as before. */
  predicate Fate(j: Job, u: Job, failed: bool) {
    && SameJob(j, u)
    && if failed then Jobs.Active(j.state) && !Jobs.Active(u.state)
       else Jobs.Active(j.state) <==> Jobs.Active(u.state)
  }

  /** Claim ends the work of the jobs it gives up and of no other. */
  lemma ClaimedJob(t: Table, kind: string, worker: string, now: Time, duration: int, locked: set<nat>,
                   chosen: Option<nat>, k: nat)
    requires RowsOk(t) && JobRuns.Possible(t, JobRuns.Claim(kind, worker, now, duration, locked, chosen)) && k in t
    ensures var u := Claimed(t, kind, worker, now, duration, locked, chosen);
            k in u && Fate(t[k].job, u[k].job, k in Spent(t, kind, now, locked, chosen))
  {
    var gone := Spent(t, kind, now, locked, chosen);
    if k in gone {
      GiveUpKeepsInv(t[k], now);
      GivenUpJob(t[k], now);
    } else if chosen == Some(k) {
      GrantKeepsInv(t[k], worker, now, duration);
      GrantedJob(t[k], worker, now, duration);
    }
  }

  lemma ClaimKeepsRows(t: Table, kind: string, worker: string, now: Time, duration: int, locked: set<nat>,
                       chosen: Option<nat>)
    requires chosen.Some? ==> chosen.value in t
    ensures Claimed(t, kind, worker, now, duration, locked, chosen).Keys == t.Keys
  {
    var rest := GiveUpAll(t, Spent(t, kind, now, locked, chosen), now);
    assert rest.Keys == t.Keys;
  }

  lemma FailedJob(r: Record, worker: string, now: Time, errorCode: string, retryDelay: int)
    requires Jobs.Fail(r, worker, now, errorCode, retryDelay).Ok?
    ensures var u := Jobs.Fail(r, worker, now, errorCode, retryDelay).value; Fate(r.job, u.job, u.job.state.Failed?)
  {}

  /** u is t after the jobs in gone, all of one kind, have failed for good. */
  ghost predicate FailsJobs(t: Table, u: Table, gone: set<nat>) {
    && u.Keys == t.Keys && gone <= t.Keys
    && (forall k :: k in t ==> Fate(t[k].job, u[k].job, k in gone))
    && (forall k, l :: k in gone && l in gone ==> t[k].job.kind == t[l].job.kind)
  }

  ghost predicate Intrudes(w: World, gone: set<nat>) {
    exists k :: k in gone && k in w.jobs && w.jobs[k].job.kind != TRANSCRIBE && OnProcessing(w, w.jobs[k].job)
  }

  /** A failed transcription takes its asset with it. */
  lemma TranscriptionFails(w: World, u: Table, gone: set<nat>, k: nat, a: string)
    requires Inv(w) && FailsJobs(w.jobs, u, gone) && a in w.assets
    requires k in gone && w.jobs[k].job.kind == TRANSCRIBE && w.jobs[k].job.assetId == Some(a)
    ensures AssetAgrees(u, a, FailAssets(w.assets, w.jobs, gone)[a])
  {
    assert Hits(w.jobs, gone, a);
    WorkEnds(w.jobs, u, k, a);
  }

  /** An asset none of whose transcriptions fails stays as it is. */
  lemma OthersUntouched(w: World, u: Table, gone: set<nat>, a: string)
    requires FailsJobs(w.jobs, u, gone) && a in w.assets && AssetAgrees(w.jobs, a, w.assets[a])
    requires !Intrudes(w, gone)
    requires forall k :: k in gone && w.jobs[k].job.assetId == Some(a) ==> w.jobs[k].job.kind != TRANSCRIBE
    ensures AssetAgrees(u, a, FailAssets(w.assets, w.jobs, gone)[a])
  {
    StillWorking(w.jobs, u, a);
    assert forall k :: k in gone && w.jobs[k].job.assetId == Some(a) ==> !OnProcessing(w, w.jobs[k].job);
  }

  lemma FailuresAgree(w: World, u: Table, gone: set<nat>)
    requires Inv(w) && Agrees(w) && FailsJobs(w.jobs, u, gone) && !Intrudes(w, gone)
    ensures Agrees(World(u, FailAssets(w.assets, w.jobs, gone)))
  {
    forall a | a in w.assets
      ensures AssetAgrees(u, a, FailAssets(w.assets, w.jobs, gone)[a])
    {
      if k :| k in gone && w.jobs[k].job.kind == TRANSCRIBE && w.jobs[k].job.assetId == Some(a) {
        TranscriptionFails(w, u, gone, k, a);
      } else {
        OthersUntouched(w, u, gone, a);
      }
    }
  }

  /** A job of another kind fails the asset under the transcription that works on it. */
  lemma IntrudedAsset(w: World, u: Table, gone: set<nat>, k: nat, a: string)
    requires FailsJobs(w.jobs, u, gone) && k in gone && w.jobs[k].job.kind != TRANSCRIBE
    requires w.jobs[k].job.assetId == Some(a) && a in w.assets && w.assets[a].status == PROCESSING
    requires AssetOk(w.assets[a]) && AssetAgrees(w.jobs, a, w.assets[a])
    ensures !AssetAgrees(u, a, FailAssets(w.assets, w.jobs, gone)[a])
  {
    assert Hits(w.jobs, gone, a);
    StillWorking(w.jobs, u, a);
  }

  lemma IntrusionDisagrees(w: World, u: Table, gone: set<nat>)
    requires Linked(w) && Agrees(w) && FailsJobs(w.jobs, u, gone) && Intrudes(w, gone)
    ensures !Agrees(World(u, FailAssets(w.assets, w.jobs, gone)))
  {
    var k :| k in gone && k in w.jobs && w.jobs[k].job.kind != TRANSCRIBE && OnProcessing(w, w.jobs[k].job);
    var a := w.jobs[k].job.assetId.value;
    IntrudedAsset(w, u, gone, k, a);
    assert a in FailAssets(w.assets, w.jobs, gone);
  }

  lemma FailureKeepsLinks(w: World, u: Table, gone: set<nat>)
    requires Linked(w) && FailsJobs(w.jobs, u, gone)
    ensures Linked(World(u, FailAssets(w.assets, w.jobs, gone)))
  {
    forall k | k in u
      ensures Refers(FailAssets(w.assets, w.jobs, gone), u[k].job.assetId, u[k].job.workspaceId)
    {
      assert SameJob(w.jobs[k].job, u[k].job);
    }
  }

  // ---------------------------------------------------------------------------
  // The steps one by one
  // ---------------------------------------------------------------------------

  lemma ClaimFails(w: World, x: Action)
    requires RowsOk(w.jobs) && Possible(w, x) && x.Claim?
    ensures FailsJobs(w.jobs, Next(w, x).jobs, Gone(w, x))
  {
    var t := w.jobs;
    forall k | k in t
      ensures k in Next(w, x).jobs && Fate(t[k].job, Next(w, x).jobs[k].job, k in Gone(w, x))
    {
      ClaimedJob(t, x.kind, x.worker, x.now, x.duration, x.locked, x.chosen, k);
    }
    ClaimKeepsRows(t, x.kind, x.worker, x.now, x.duration, x.locked, x.chosen);
  }

  lemma FailFails(w: World, x: Action)
    requires Possible(w, x) && x.Fail?
    ensures FailsJobs(w.jobs, Next(w, x).jobs, Gone(w, x))
  {
    if FailedOnce(w.jobs, x.id, x.worker, x.now, x.errorCode, x.retryDelay).Ok? {
      FailedJob(w.jobs[x.id], x.worker, x.now, x.errorCode, x.retryDelay);
    }
  }

  /** One row changes or appears, and works on b exactly if it did. */
  lemma OneRow(t: Table, k: nat, r: Record, b: string)
    requires (k in t && Works(t[k].job, b)) <==> Works(r.job, b)
    ensures KeepsWork(t, t[k := r], b)
  {}

  /** A change to one row and its asset, seen from any asset. */
  lemma OneRowAgrees(w: World, k: nat, r: Record, a: string, s: Asset)
    requires Agrees(w) && a in w.assets && AssetAgrees(w.jobs[k := r], a, s)
    requires forall b :: b != a ==> ((k in w.jobs && Works(w.jobs[k].job, b)) <==> Works(r.job, b))
    ensures Agrees(World(w.jobs[k := r], w.assets[a := s]))
  {
    var u := World(w.jobs[k := r], w.assets[a := s]);
    forall b | b in u.assets
      ensures AssetAgrees(u.jobs, b, u.assets[b])
    {
      if b != a {
        OneRow(w.jobs, k, r, b);
        StillWorking(w.jobs, u.jobs, b);
      }
    }
  }

  /** A job of another kind does not count. */
  lemma OtherKindAgrees(w: World, k: nat, r: Record)
    requires Agrees(w) && r.job.kind != TRANSCRIBE && (k in w.jobs ==> w.jobs[k].job.kind != TRANSCRIBE)
    ensures Agrees(w.(jobs := w.jobs[k := r]))
  {
    var u := w.(jobs := w.jobs[k := r]);
    forall b | b in u.assets
      ensures AssetAgrees(u.jobs, b, u.assets[b])
    {
      OneRow(w.jobs, k, r, b);
      StillWorking(w.jobs, u.jobs, b);
    }
  }

  lemma TranscribeAgrees(w: World, x: Action)
    requires Agrees(w) && Possible(w, x) && x.Transcribe?
    ensures Agrees(Next(w, x))
  {
    if Next(w, x) != w {
      var r := FreshJob(x.id, x.workspaceId, Some(x.asset), TRANSCRIBE, x.maxAttempts, x.now);
      assert Works(w.jobs[x.id := r][x.id].job, x.asset);
      OneRowAgrees(w, x.id, r, x.asset, w.assets[x.asset].(status := PROCESSING));
    }
  }

  lemma CommitAgrees(w: World, x: Action)
    requires TableInv(w.jobs) && Agrees(w) && Possible(w, x) && x.Commit?
    ensures Agrees(Next(w, x))
  {
    var r := Committed(w, x.id, x.worker, x.now, x.revision);
    if r.Ok? {
      var j := w.jobs[x.id].job;
      var a := j.assetId.value;
      var record := r.value.jobs[x.id];
      WorkEnds(w.jobs, w.jobs[x.id := record], x.id, a);
      OneRowAgrees(w, x.id, record, a, w.assets[a].(status := READY, transcript := true));
    }
  }

  lemma RetryAgrees(w: World, x: Action)
    requires Agrees(w) && Possible(w, x) && x.Retry?
    ensures Agrees(Next(w, x))
  {
    var r := Retried(w, x.id, x.workspaceId, x.now);
    if r.Ok? {
      var record := r.value.jobs[x.id];
      if record.job.kind == TRANSCRIBE {
        var a := record.job.assetId.value;
        assert Works(w.jobs[x.id := record][x.id].job, a);
        OneRowAgrees(w, x.id, record, a, w.assets[a].(status := PROCESSING));
      } else {
        OtherKindAgrees(w, x.id, record);
      }
    }
  }

  lemma CorrectOrFinishAgrees(w: World, x: Action)
    requires Agrees(w) && Possible(w, x) && (x.Correct? || x.Finish?)
    ensures Agrees(Next(w, x))
  {
    if Next(w, x) != w {
      OtherKindAgrees(w, x.id, Next(w, x).jobs[x.id]);
    }
  }

  /** No job can be at work on an asset that does not exist, has an open upload or is not processing. */
  lemma NewAssetAgrees(w: World, x: Action)
    requires Linked(w) && Agrees(w) && x.NewAsset?
    ensures Agrees(Next(w, x))
  {
    if x.asset !in w.assets {
      forall k | k in w.jobs
        ensures !Works(w.jobs[k].job, x.asset)
      {
        assert Refers(w.assets, w.jobs[k].job.assetId, w.jobs[k].job.workspaceId);
      }
    }
  }

  lemma StartUploadAgrees(w: World, x: Action)
    requires Agrees(w) && x.StartUpload?
    ensures Agrees(Next(w, x))
  {
    assert x.asset in w.assets ==> AssetAgrees(w.jobs, x.asset, w.assets[x.asset]);
  }

  lemma OpenIsIdle(w: World, a: string)
    requires Linked(w) && Agrees(w) && a in w.assets && w.assets[a].open
    ensures !Working(w.jobs, a)
  {
    assert AssetOk(w.assets[a]) && AssetAgrees(w.jobs, a, w.assets[a]);
  }

  lemma EndUploadAgrees(w: World, x: Action)
    requires Linked(w) && Agrees(w) && (x.FinishUpload? || x.FailUpload?)
    ensures Agrees(Next(w, x))
  {
    if x.asset in w.assets && w.assets[x.asset].open {
      OpenIsIdle(w, x.asset);
      if x.FinishUpload? && Uploaded(w, x.asset, x.id, x.now).Some? {
        var s := w.assets[x.asset];
        var record := FreshJob(x.id, s.workspaceId, Some(x.asset), WAVEFORM, 3, x.now);
        OneRow(w.jobs, x.id, record, x.asset);
        StillWorking(w.jobs, w.jobs[x.id := record], x.asset);
        OneRowAgrees(w, x.id, record, x.asset, s.(status := READY, open := false, original := true));
      }
    }
  }

  lemma RequestPurgeAgrees(w: World, x: Action)
    requires Agrees(w) && x.RequestPurge?
    ensures Agrees(Next(w, x))
  {
    if PurgeRequested(w, x.id, x.asset, x.now).Some? {
      var s := w.assets[x.asset];
      var record := FreshJob(x.id, s.workspaceId, Some(x.asset), PURGE, 10, x.now);
      OneRow(w.jobs, x.id, record, x.asset);
      StillWorking(w.jobs, w.jobs[x.id := record], x.asset);
      OneRowAgrees(w, x.id, record, x.asset, s.(status := PURGING));
    }
  }

  lemma PurgeAgrees(w: World, x: Action)
    requires Agrees(w) && x.Purge?
    ensures Agrees(Next(w, x))
  {
    if PurgeDone(w, x.id, x.worker, x.now, x.same).Some? {
      var u, a := Next(w, x), w.jobs[x.id].job.assetId.value;
      forall b | b in u.assets
        ensures AssetAgrees(u.jobs, b, u.assets[b])
      {
        assert AssetAgrees(w.jobs, b, w.assets[b]);
        PurgeKeepsWork(w, x, b);
        StillWorking(w.jobs, u.jobs, b);
      }
    }
  }

  /** A purge takes away jobs of its own asset only. */
  lemma PurgeKeepsWork(w: World, x: Action, b: string)
    requires x.Purge? && PurgeDone(w, x.id, x.worker, x.now, x.same).Some? && w.jobs[x.id].job.assetId != Some(b)
    ensures KeepsWork(w.jobs, Next(w, x).jobs, b)
  {}

  lemma TrashAgrees(w: World, x: Action)
    requires Linked(w) && Agrees(w) && Possible(w, x) && x.Trash?
    ensures Agrees(Next(w, x))
  {
    assert x.asset in w.assets ==> AssetAgrees(w.jobs, x.asset, w.assets[x.asset]);
  }

  lemma RestoreAgreesIff(w: World, x: Action)
    requires Linked(w) && Agrees(w) && Possible(w, x) && x.Restore?
    ensures Agrees(Next(w, x)) <==> !Interferes(w, x)
  {
    if x.asset in w.assets {
      var s := w.assets[x.asset];
      assert AssetAgrees(w.jobs, x.asset, s) && AssetOk(s);
      if Interferes(w, x) {
        assert !AssetAgrees(w.jobs, x.asset, Next(w, x).assets[x.asset]);
      }
    }
  }

  // ---------------------------------------------------------------------------
  // Every step, every run
  // ---------------------------------------------------------------------------

  lemma FailureAgreesIff(w: World, x: Action)
    requires Inv(w) && Agrees(w) && Possible(w, x) && (x.Claim? || x.Fail?)
    ensures Agrees(Next(w, x)) <==> !Interferes(w, x)
  {
    if x.Claim? {
      ClaimFails(w, x);
    } else {
      FailFails(w, x);
    }
    if Intrudes(w, Gone(w, x)) {
      IntrusionDisagrees(w, Next(w, x).jobs, Gone(w, x));
    } else {
      FailuresAgree(w, Next(w, x).jobs, Gone(w, x));
    }
  }

  /** A step keeps the agreement of jobs and assets exactly if it is not one of the two. */
  lemma AgreesExactlyWithoutInterference(w: World, x: Action)
    requires Inv(w) && Agrees(w) && Possible(w, x)
    ensures Agrees(Next(w, x)) <==> !Interferes(w, x)
  {
    if x.Claim? || x.Fail? {
      FailureAgreesIff(w, x);
    } else {
      match x
      case Transcribe(_, _, _, _, _) => TranscribeAgrees(w, x);
      case Commit(_, _, _, _) => CommitAgrees(w, x);
      case Retry(_, _, _) => RetryAgrees(w, x);
      case Trash(_) => TrashAgrees(w, x);
      case Restore(_) => RestoreAgreesIff(w, x);
      case NewAsset(_, _) => NewAssetAgrees(w, x);
      case StartUpload(_) => StartUploadAgrees(w, x);
      case FinishUpload(_, _, _) => EndUploadAgrees(w, x);
      case FailUpload(_) => EndUploadAgrees(w, x);
      case RequestPurge(_, _, _) => RequestPurgeAgrees(w, x);
      case Purge(_, _, _, _) => PurgeAgrees(w, x);
      case _ => CorrectOrFinishAgrees(w, x);
    }
  }

  /** The same assets, each sound, with possibly another status. */
  ghost predicate SameAssets(before: map<string, Asset>, after: map<string, Asset>) {
    && after.Keys == before.Keys
    && forall a :: a in before ==> after[a].workspaceId == before[a].workspaceId && AssetOk(after[a])
  }

  lemma OneRowLinks(w: World, k: nat, r: Record, assets: map<string, Asset>)
    requires Linked(w) && SameAssets(w.assets, assets) && Refers(w.assets, r.job.assetId, r.job.workspaceId)
    ensures Linked(World(w.jobs[k := r], assets))
  {
    var u := w.jobs[k := r];
    forall i | i in u
      ensures Refers(assets, u[i].job.assetId, u[i].job.workspaceId)
    {
      assert i != k ==> Refers(w.assets, w.jobs[i].job.assetId, w.jobs[i].job.workspaceId);
    }
  }

  /** The steps that change or add one row. */
  predicate RowStep(x: Action) {
    x.FinishUpload? || x.Transcribe? || x.Correct? || x.Commit? || x.Finish? || x.Retry? || x.RequestPurge?
  }

  /** The steps that add a row. */
  predicate InsertStep(x: Action) { x.FinishUpload? || x.Transcribe? || x.Correct? || x.RequestPurge? }

  lemma InsertStepLinks(w: World, x: Action)
    requires Linked(w) && Possible(w, x) && InsertStep(x) && Next(w, x) != w
    ensures Linked(Next(w, x))
  {
    assert x.asset in w.assets && AssetOk(w.assets[x.asset]);
    OneRowLinks(w, x.id, Next(w, x).jobs[x.id], Next(w, x).assets);
  }

  lemma RowStepLinks(w: World, x: Action)
    requires Linked(w) && Possible(w, x) && RowStep(x) && Next(w, x) != w
    ensures Linked(Next(w, x))
  {
    if InsertStep(x) {
      InsertStepLinks(w, x);
    } else {
      assert Refers(w.assets, w.jobs[x.id].job.assetId, w.jobs[x.id].job.workspaceId);
      OneRowLinks(w, x.id, Next(w, x).jobs[x.id], Next(w, x).assets);
    }
  }

  lemma PurgeLinks(w: World, x: Action)
    requires Linked(w) && x.Purge?
    ensures Linked(Next(w, x))
  {
    var u := Next(w, x);
    forall k | k in u.jobs
      ensures Refers(u.assets, u.jobs[k].job.assetId, u.jobs[k].job.workspaceId)
    {
      assert k in w.jobs && Refers(w.assets, w.jobs[k].job.assetId, w.jobs[k].job.workspaceId);
    }
  }

  /** The steps that change one asset and no job. */
  lemma AssetStepLinks(w: World, x: Action)
    requires Linked(w) && Possible(w, x)
    requires x.NewAsset? || x.StartUpload? || x.FailUpload? || x.Trash? || x.Restore?
    ensures Linked(Next(w, x)) && Next(w, x).jobs == w.jobs
  {
    var u := Next(w, x);
    forall k | k in u.jobs
      ensures Refers(u.assets, u.jobs[k].job.assetId, u.jobs[k].job.workspaceId)
    {
      assert Refers(w.assets, w.jobs[k].job.assetId, w.jobs[k].job.workspaceId);
    }
  }

  lemma NextKeepsLinks(w: World, x: Action)
    requires Inv(w) && Possible(w, x)
    ensures Linked(Next(w, x))
  {
    if x.Claim? {
      ClaimFails(w, x);
      FailureKeepsLinks(w, Next(w, x).jobs, Gone(w, x));
    } else if x.Fail? {
      FailFails(w, x);
      FailureKeepsLinks(w, Next(w, x).jobs, Gone(w, x));
    } else if x.Purge? {
      PurgeLinks(w, x);
    } else if !RowStep(x) {
      AssetStepLinks(w, x);
    } else if Next(w, x) != w {
      RowStepLinks(w, x);
    }
  }

  /** The step works on the job table. */
  predicate JobStep(x: Action) { RowStep(x) || x.Claim? || x.Fail? || x.Purge? }

  predicate HasOp(w: World, x: Action) { JobStep(x) && ((x.FinishUpload? || x.RequestPurge?) ==> x.asset in w.assets) }

  function OpOf(w: World, x: Action): JobRuns.Op
    requires HasOp(w, x)
  {
    match x
    case FinishUpload(a, id, now) => JobRuns.Insert(id, w.assets[a].workspaceId, Some(a), WAVEFORM, 3, now)
    case Transcribe(id, workspaceId, a, maxAttempts, now) =>
      JobRuns.Insert(id, workspaceId, Some(a), TRANSCRIBE, maxAttempts, now)
    case Correct(id, workspaceId, a, maxAttempts, now) =>
      JobRuns.Insert(id, workspaceId, Some(a), CORRECT, maxAttempts, now)
    case Claim(kind, worker, now, duration, locked, chosen) =>
      JobRuns.Claim(kind, worker, now, duration, locked, chosen)
    case Commit(id, worker, now, revision) => JobRuns.Succeed(id, worker, now, Some(revision))
    case Finish(id, worker, now, result) => JobRuns.Succeed(id, worker, now, result)
    case Fail(id, worker, now, errorCode, retryDelay) => JobRuns.Fail(id, worker, now, errorCode, retryDelay)
    case Retry(id, workspaceId, now) => JobRuns.RetryJob(id, workspaceId, ViewOf(w, id, workspaceId), now)
    case RequestPurge(id, a, now) => JobRuns.Insert(id, w.assets[a].workspaceId, Some(a), PURGE, 10, now)
    case Purge(id, worker, now, _) => JobRuns.Purge(id, worker, now)
  }

  /** On the job table every step is a transaction of JobRuns, or none. */
  lemma StepsAreTransactions(w: World, x: Action)
    requires Possible(w, x)
    ensures Next(w, x).jobs == w.jobs
            || (HasOp(w, x) && JobRuns.Possible(w.jobs, OpOf(w, x))
                && Next(w, x).jobs == JobRuns.Step(w.jobs, OpOf(w, x)))
  {}

  lemma NextKeepsInv(w: World, x: Action)
    requires Inv(w) && Possible(w, x)
    ensures Inv(Next(w, x))
  {
    NextKeepsLinks(w, x);
    StepsAreTransactions(w, x);
    if Next(w, x).jobs != w.jobs {
      JobRuns.StepKeepsInv(w.jobs, OpOf(w, x));
    }
  }

  ghost predicate IsRun(w: World, run: seq<Action>)
    decreases |run|
  {
    run == [] || (Possible(w, run[0]) && IsRun(Next(w, run[0]), run[1..]))
  }

  ghost function Run(w: World, run: seq<Action>): World
    requires IsRun(w, run)
    decreases |run|
  {
    if run == [] then w else Run(Next(w, run[0]), run[1..])
  }

  ghost predicate Undisturbed(w: World, run: seq<Action>)
    requires IsRun(w, run)
    decreases |run|
  {
    run == [] || (!Interferes(w, run[0]) && Undisturbed(Next(w, run[0]), run[1..]))
  }

  /** Over every run without interference: an asset outside the trash is processing if and only if
      one of its transcriptions is active. */
  lemma {:induction false} ProcessingMeansTranscribing(w: World, run: seq<Action>)
    requires Inv(w) && Agrees(w) && IsRun(w, run) && Undisturbed(w, run)
    ensures Inv(Run(w, run)) && Agrees(Run(w, run))
    ensures var u := Run(w, run);
            forall a :: a in u.assets && !u.assets[a].deleted ==>
                (u.assets[a].status == PROCESSING <==> Working(u.jobs, a))
    decreases |run|
  {
    if run != [] {
      NextKeepsInv(w, run[0]);
      AgreesExactlyWithoutInterference(w, run[0]);
      ProcessingMeansTranscribing(Next(w, run[0]), run[1..]);
    } else {
      assert forall a :: a in w.assets ==> AssetAgrees(w.jobs, a, w.assets[a]);
    }
  }

  /** Where jobs and assets agree, a worker with a live lease can commit its transcript exactly if
      the asset is not in the trash: the check of the status refuses nothing. */
  lemma CommitNeedsOnlyTheLease(w: World, id: nat, worker: string, now: Time, revision: string)
    requires Inv(w) && Agrees(w) && id in w.jobs && w.jobs[id].job.kind == TRANSCRIBE && w.jobs[id].job.assetId.Some?
    requires ValidWorker(worker) && now != ZERO_TIME
    ensures var a := w.jobs[id].job.assetId.value;
            Committed(w, id, worker, now, revision).Ok? <==>
              OwnsLiveLease(w.jobs[id].job, worker, now) && !w.assets[a].deleted
    ensures Committed(w, id, worker, now, revision) != Err(InvalidCommit)
  {
    var j := w.jobs[id].job;
    SucceedExactlyWithLiveLease(w.jobs[id], worker, now, Some(revision), j.assetId);
    assert Refers(w.assets, j.assetId, j.workspaceId)
           && AssetAgrees(w.jobs, j.assetId.value, w.assets[j.assetId.value]);
    if OwnsLiveLease(j, worker, now) {
      assert Works(j, j.assetId.value);
    }
  }
}
