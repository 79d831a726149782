/** Durable jobs and worker leases: internal/job/postgres_repository.go and the administrator's
    retry in internal/operations/postgres_repository.go. A transaction is one atomic step; its
    clock, GREATEST of the caller's time and the database's, is the parameter `now`. */
module Jobs {
  import opened Common
  import opened Strings

  datatype State = Queued | Running | RetryWait | Succeeded | Failed | Cancelled

  /** A row of jobs. The id is the UUID read as the number by which the database orders it. */
  datatype Job = Job(
    id: nat, workspaceId: string, assetId: Option<string>, kind: string, state: State,
    attempts: nat, maxAttempts: nat, availableAt: Time,
    leaseOwner: Option<string>, leaseExpiresAt: Option<Time>,
    lastErrorCode: Option<string>, resultRevisionId: Option<string>, createdAt: Time, updatedAt: Time)

  datatype Outcome = LeaseExpired | Success | Retry | Failure
  datatype Finish = Finish(outcome: Outcome, errorCode: Option<string>, at: Time)

  /** A row of job_attempts; it is open while finish is None. */
  datatype Attempt = Attempt(worker: string, startedAt: Time, finish: Option<Finish>)

  /** A job with its ledger: the rows of job_attempts that refer to it, by attempt number. */
  datatype Record = Record(job: Job, ledger: map<nat, Attempt>)

  datatype JobError =
    InvalidInput | InvalidErrorCode | NotFound | NoClaimableJob | LeaseConflict | NotRetryable | RetryLimit | Duplicate

  const LEASE_EXPIRED := "lease_expired"
  const SAFE_ERROR_CODES :=
      {"internal_error", "provider_unavailable", "invalid_audio", "provider_rejected", "worker_timeout", LEASE_EXPIRED}
  const MAX_ATTEMPTS_LIMIT := 20

  const TRANSCRIBE := "mock_transcribe"
  const CORRECT := "llm_correct"
  const WAVEFORM := "generate_waveform"
  const PURGE := "purge_asset"

  predicate Waiting(s: State) { s.Queued? || s.RetryWait? }
  predicate Active(s: State) { Waiting(s) || s.Running? }

  /** validWorkerID */
  predicate ValidWorker(worker: string) {
    1 <= Utf8Length(worker) <= 200 && forall i :: 0 <= i < |worker| ==> !IsControl(worker[i])
  }

  // ---------------------------------------------------------------------------
  // Steps on one record
  // ---------------------------------------------------------------------------

  function FreshJob(id: nat, workspaceId: string, assetId: Option<string>, kind: string, maxAttempts: nat,
                    now: Time): Record {
    Record(Job(id, workspaceId, assetId, kind, Queued, 0, maxAttempts, now, None, None, None, None, now, now), map[])
  }

  predicate OpenRow(ledger: map<nat, Attempt>, n: nat) { n in ledger && ledger[n].finish.None? }

  /** finishAttempt: close the one open row, or report that there is none. */
  function FinishAttempt(ledger: map<nat, Attempt>, n: nat, f: Finish): Result<map<nat, Attempt>, JobError> {
    if OpenRow(ledger, n) then Ok(ledger[n := ledger[n].(finish := Some(f))]) else Err(LeaseConflict)
  }

  /** ownsLiveLease */
  predicate OwnsLiveLease(j: Job, worker: string, now: Time) {
    j.state.Running? && j.leaseOwner == Some(worker) && j.leaseExpiresAt.Some? && j.leaseExpiresAt.value > now
  }

  predicate Exhausted(j: Job) { j.state.Running? && j.attempts >= j.maxAttempts }

  /** The WHERE clause of Claim. */
  predicate Due(j: Job, kind: string, now: Time) {
    && j.kind == kind
    && (|| (Waiting(j.state) && j.availableAt <= now && j.attempts < j.maxAttempts)
        || (j.state.Running? && j.leaseExpiresAt.Some? && j.leaseExpiresAt.value <= now))
  }

  /** The ORDER BY of Claim: expired runs first, then by time available, time created and id. */
  predicate Precedes(a: Job, b: Job) {
    var ra, rb := if a.state.Running? then 0 else 1, if b.state.Running? then 0 else 1;
    ra < rb || (ra == rb &&
      (a.availableAt < b.availableAt || (a.availableAt == b.availableAt &&
        (a.createdAt < b.createdAt || (a.createdAt == b.createdAt && a.id < b.id)))))
  }

  /** That order is strict and total on rows, puts every expired run before every waiting job, and
      among either kind goes by time available and then by time created. */
  lemma ClaimOrder(a: Job, b: Job, c: Job)
    ensures !Precedes(a, a) && (Precedes(a, b) && Precedes(b, c) ==> Precedes(a, c))
    ensures a.id != b.id ==> (Precedes(a, b) <==> !Precedes(b, a))
    ensures a.state.Running? && !b.state.Running? ==> Precedes(a, b)
    ensures (a.state.Running? <==> b.state.Running?) && Precedes(a, b) ==>
              a.availableAt < b.availableAt || (a.availableAt == b.availableAt && a.createdAt <= b.createdAt)
  {}

  /** What Claim does first with a candidate whose lease ran out. */
  function ExpireAttempt(r: Record, now: Time): Result<Record, JobError> {
    if !r.job.state.Running? then Ok(r)
    else match FinishAttempt(r.ledger, r.job.attempts, Finish(LeaseExpired, Some(LEASE_EXPIRED), now))
      case Ok(ledger) => Ok(r.(ledger := ledger))
      case Err(e) => Err(e)
  }

  function GiveUp(j: Job, now: Time): Job {
    j.(state := Failed, leaseOwner := None, leaseExpiresAt := None, lastErrorCode := Some(LEASE_EXPIRED),
       updatedAt := now)
  }

  function Leased(j: Job, worker: string, now: Time, duration: int): Job {
    j.(state := Running, attempts := j.attempts + 1, leaseOwner := Some(worker), leaseExpiresAt := Some(now + duration),
       lastErrorCode := None, updatedAt := now)
  }

  /** The record after its lease was granted, and after it was given up. */
  function Granted(r: Record, worker: string, now: Time, duration: int): Result<Record, JobError> {
    match ExpireAttempt(r, now)
    case Err(e) => Err(e)
    case Ok(x) => Ok(Record(Leased(x.job, worker, now, duration),
                            x.ledger[x.job.attempts + 1 := Attempt(worker, now, None)]))
  }

  function GivenUp(r: Record, now: Time): Result<Record, JobError> {
    match ExpireAttempt(r, now)
    case Err(e) => Err(e)
    case Ok(x) => Ok(x.(job := GiveUp(x.job, now)))
  }

  /** Succeed, and every commit that ends a job under a live lease: transcription, correction,
      waveform and purge differ only in the revision they record and the asset they keep. */
  function Succeed(r: Record, worker: string, now: Time, revision: Option<string>,
                   asset: Option<string>): Result<Record, JobError> {
    if !OwnsLiveLease(r.job, worker, now) then Err(LeaseConflict)
    else match FinishAttempt(r.ledger, r.job.attempts, Finish(Success, None, now))
      case Err(e) => Err(e)
      case Ok(ledger) =>
        Ok(Record(r.job.(state := Succeeded, leaseOwner := None, leaseExpiresAt := None, lastErrorCode := None,
                         resultRevisionId := revision, assetId := asset, updatedAt := now), ledger))
  }

  function Fail(r: Record, worker: string, now: Time, errorCode: string, retryDelay: int): Result<Record, JobError> {
    if !OwnsLiveLease(r.job, worker, now) then Err(LeaseConflict)
    else
      var terminal := r.job.attempts >= r.job.maxAttempts;
      match FinishAttempt(r.ledger, r.job.attempts, Finish(if terminal then Failure else Retry, Some(errorCode), now))
      case Err(e) => Err(e)
      case Ok(ledger) =>
        Ok(Record(r.job.(state := if terminal then Failed else RetryWait,
                         availableAt := if terminal then r.job.availableAt else now + retryDelay,
                         leaseOwner := None, leaseExpiresAt := None, lastErrorCode := Some(errorCode),
                         updatedAt := now), ledger))
  }

  /** The asset row as RetryJob sees it. */
  datatype AssetView = AssetView(status: string, deleted: bool)

  predicate RetryEligible(kind: string, asset: Option<AssetView>) {
    asset.Some? &&
    if kind == TRANSCRIBE then asset.value.status == "failed" && !asset.value.deleted
    else if kind == CORRECT || kind == WAVEFORM then asset.value.status == "ready" && !asset.value.deleted
    else kind == PURGE && asset.value.status == "purging"
  }

  /** RetryJob on the locked row: one more attempt for a failed job. */
  function RetryJob(r: Record, asset: Option<AssetView>, now: Time): Result<Record, JobError> {
    if !r.job.state.Failed? || r.job.resultRevisionId.Some? || r.job.assetId.None? then Err(NotRetryable)
    else if r.job.maxAttempts >= MAX_ATTEMPTS_LIMIT then Err(RetryLimit)
    else if !RetryEligible(r.job.kind, asset) then Err(NotRetryable)
    else Ok(r.(job := r.job.(state := Queued, maxAttempts := r.job.maxAttempts + 1, availableAt := now,
                             leaseOwner := None, leaseExpiresAt := None, lastErrorCode := None, updatedAt := now)))
  }

  // ---------------------------------------------------------------------------
  // What holds of every record
  // ---------------------------------------------------------------------------

  /** The ledger holds exactly the attempts 1..attempts; the last one is open, and belongs to the
      lease owner, exactly while the job is running; no other is open. Waiting jobs have attempts
      left, failed jobs have none. */
  ghost predicate RecordInv(r: Record) {
    var j := r.job;
    && 1 <= j.maxAttempts <= MAX_ATTEMPTS_LIMIT && j.attempts <= j.maxAttempts
    && (forall n: nat :: n in r.ledger <==> 1 <= n <= j.attempts)
    && (forall n: nat :: OpenRow(r.ledger, n) <==> j.state.Running? && n == j.attempts)
    && (j.state.Running? <==> j.leaseOwner.Some?) && (j.state.Running? <==> j.leaseExpiresAt.Some?)
    && (j.state.Running? ==> j.attempts >= 1 && j.leaseOwner == Some(r.ledger[j.attempts].worker))
    && (Waiting(j.state) ==> j.attempts < j.maxAttempts)
    && (j.state.Failed? ==> j.attempts == j.maxAttempts)
    && (j.state.Succeeded? ==> j.attempts >= 1)
    && !j.state.Cancelled?
  }

  lemma FreshJobInv(id: nat, workspaceId: string, assetId: Option<string>, kind: string, maxAttempts: nat, now: Time)
    requires 1 <= maxAttempts <= MAX_ATTEMPTS_LIMIT
    ensures RecordInv(FreshJob(id, workspaceId, assetId, kind, maxAttempts, now))
  {}

  /** The one-row guard of finishAttempt never fires for a running job. */
  lemma FinishGuardNeverFires(r: Record, f: Finish)
    requires RecordInv(r) && r.job.state.Running?
    ensures FinishAttempt(r.ledger, r.job.attempts, f).Ok?
  {
    assert OpenRow(r.ledger, r.job.attempts);
  }

  lemma ExpireAttemptOk(r: Record, now: Time)
    requires RecordInv(r)
    ensures ExpireAttempt(r, now).Ok?
    ensures var x := ExpireAttempt(r, now).value;
            x.job == r.job && x.ledger.Keys == r.ledger.Keys
            && forall n :: n in r.ledger ==> !OpenRow(x.ledger, n)
  {
    if r.job.state.Running? {
      FinishGuardNeverFires(r, Finish(LeaseExpired, Some(LEASE_EXPIRED), now));
    }
    assert forall n :: n in r.ledger && n != r.job.attempts ==> !OpenRow(r.ledger, n);
  }

  lemma GrantKeepsInv(r: Record, worker: string, now: Time, duration: int)
    requires RecordInv(r) && (Waiting(r.job.state) || (r.job.state.Running? && !Exhausted(r.job)))
    ensures Granted(r, worker, now, duration).Ok? && RecordInv(Granted(r, worker, now, duration).value)
  {
    ExpireAttemptOk(r, now);
  }

  lemma GiveUpKeepsInv(r: Record, now: Time)
    requires RecordInv(r) && Exhausted(r.job)
    ensures GivenUp(r, now).Ok? && RecordInv(GivenUp(r, now).value)
  {
    ExpireAttemptOk(r, now);
  }

  lemma FinishedKeepsInv(r: Record, f: Finish)
    requires RecordInv(r) && r.job.state.Running?
    ensures var ledger := FinishAttempt(r.ledger, r.job.attempts, f).value;
            && FinishAttempt(r.ledger, r.job.attempts, f).Ok? && ledger.Keys == r.ledger.Keys
            && forall n: nat :: !OpenRow(ledger, n)
  {
    FinishGuardNeverFires(r, f);
    var ledger := FinishAttempt(r.ledger, r.job.attempts, f).value;
    forall n: nat
      ensures !OpenRow(ledger, n)
    {
      assert OpenRow(r.ledger, n) <==> n == r.job.attempts;
    }
  }

  /** A live lease is all that Succeed and Fail need, and they keep the record sound. */
  lemma SucceedExactlyWithLiveLease(r: Record, worker: string, now: Time, revision: Option<string>,
                                    asset: Option<string>)
    requires RecordInv(r)
    ensures Succeed(r, worker, now, revision, asset).Ok? <==> OwnsLiveLease(r.job, worker, now)
    ensures Succeed(r, worker, now, revision, asset).Ok? ==> RecordInv(Succeed(r, worker, now, revision, asset).value)
  {
    if OwnsLiveLease(r.job, worker, now) {
      FinishedKeepsInv(r, Finish(Success, None, now));
    }
  }

  lemma FailExactlyWithLiveLease(r: Record, worker: string, now: Time, errorCode: string, retryDelay: int)
    requires RecordInv(r)
    ensures Fail(r, worker, now, errorCode, retryDelay).Ok? <==> OwnsLiveLease(r.job, worker, now)
    ensures Fail(r, worker, now, errorCode, retryDelay).Ok? ==>
            RecordInv(Fail(r, worker, now, errorCode, retryDelay).value)
  {
    if OwnsLiveLease(r.job, worker, now) {
      FinishedKeepsInv(r, Finish(if r.job.attempts >= r.job.maxAttempts then Failure else Retry, Some(errorCode), now));
    }
  }

  lemma RetryKeepsInv(r: Record, asset: Option<AssetView>, now: Time)
    requires RecordInv(r) && RetryJob(r, asset, now).Ok?
    ensures RecordInv(RetryJob(r, asset, now).value)
  {}

  /** A granted lease is live for its worker, and for nobody else, exactly until it runs out; the
      job is due again from then on. */
  lemma LeaseLastsItsDuration(r: Record, worker: string, now: Time, duration: int, other: string, later: Time)
    requires RecordInv(r) && (Waiting(r.job.state) || (r.job.state.Running? && !Exhausted(r.job)))
    ensures Granted(r, worker, now, duration).Ok?
    ensures var u := Granted(r, worker, now, duration).value;
            && (OwnsLiveLease(u.job, other, later) <==> other == worker && later < now + duration)
            && (Due(u.job, u.job.kind, later) <==> later >= now + duration)
            && u.ledger[u.job.attempts].worker == worker && u.ledger[u.job.attempts].startedAt == now
            && forall n :: n in r.ledger && !OpenRow(r.ledger, n) ==> u.ledger[n] == r.ledger[n]
  {
    ExpireAttemptOk(r, now);
  }

  /** A failed job comes back after the retry delay and not before, unless that was its last attempt. */
  lemma FailureComesBackLater(r: Record, worker: string, now: Time, errorCode: string, retryDelay: int, later: Time)
    requires RecordInv(r) && OwnsLiveLease(r.job, worker, now)
    ensures Fail(r, worker, now, errorCode, retryDelay).Ok?
    ensures var u := Fail(r, worker, now, errorCode, retryDelay).value;
            && (Due(u.job, u.job.kind, later) <==> r.job.attempts < r.job.maxAttempts && later >= now + retryDelay)
            && (u.job.state.Failed? <==> r.job.attempts == r.job.maxAttempts)
            && u.ledger[u.job.attempts].finish
               == Some(Finish(if u.job.state.Failed? then Failure else Retry, Some(errorCode), now))
  {
    FinishedKeepsInv(r, Finish(if r.job.attempts >= r.job.maxAttempts then Failure else Retry, Some(errorCode), now));
  }

  /** A retry gives a failed job exactly one attempt more. */
  lemma RetryGivesOneAttempt(r: Record, asset: Option<AssetView>, now: Time, later: Time)
    requires RecordInv(r) && RetryJob(r, asset, now).Ok?
    ensures var u := RetryJob(r, asset, now).value;
            && u.job.maxAttempts - u.job.attempts == 1 && u.ledger == r.ledger
            && (Due(u.job, u.job.kind, later) <==> later >= now)
  {}
}
