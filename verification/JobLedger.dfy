/** The job table and its ledger tell the same story in every run: what a job's row says of its last
    attempt is what the ledger recorded when that attempt ended. */
module JobLedger {
  import opened Common
  import opened Jobs
  import opened JobTable
  import JobRuns

  /** The attempt the job ended last has the outcome. */
  predicate LastEnded(r: Record, outcome: Outcome) {
    && r.job.attempts in r.ledger && r.ledger[r.job.attempts].finish.Some?
    && r.ledger[r.job.attempts].finish.value == Finish(outcome, r.job.lastErrorCode, r.job.updatedAt)
  }

  /** The row agrees with the ledger: a running job was last changed when its attempt started; one that
      waits for a retry, failed or succeeded when its last attempt ended, with that outcome and error;
      a queued job is available since it was queued. Only jobs that wait for a retry or failed have an
      error, and only those that succeeded a result. */
  predicate Tells(r: Record) {
    var j := r.job;
    && (j.state.Queued? ==> j.availableAt == j.updatedAt && j.lastErrorCode.None?)
    && (j.state.Running? ==>
        j.attempts in r.ledger && r.ledger[j.attempts].startedAt == j.updatedAt && j.lastErrorCode.None?)
    && (j.state.RetryWait? ==> j.lastErrorCode.Some? && LastEnded(r, Retry))
    && (j.state.Failed? ==> j.lastErrorCode.Some? && (LastEnded(r, Failure) || LastEnded(r, LeaseExpired)))
    && (j.state.Succeeded? ==> j.lastErrorCode.None? && LastEnded(r, Success))
    && (j.resultRevisionId.Some? ==> j.state.Succeeded?)
  }

  ghost predicate AllTell(t: Table) { forall id :: id in t ==> Tells(t[id]) }

  lemma GrantTells(r: Record, worker: string, now: Time, duration: int)
    requires RecordInv(r) && Tells(r) && Active(r.job.state)
    ensures Granted(r, worker, now, duration).Ok? ==> Tells(Granted(r, worker, now, duration).value)
  {
    ExpireAttemptOk(r, now);
  }

  lemma GiveUpTells(r: Record, now: Time)
    requires RecordInv(r) && Tells(r) && Exhausted(r.job)
    ensures GivenUp(r, now).Ok? && Tells(GivenUp(r, now).value)
  {
    FinishGuardNeverFires(r, Finish(LeaseExpired, Some(LEASE_EXPIRED), now));
  }

  lemma SuccessTells(r: Record, worker: string, now: Time, revision: Option<string>, asset: Option<string>)
    requires RecordInv(r) && Tells(r) && Jobs.Succeed(r, worker, now, revision, asset).Ok?
    ensures var u := Jobs.Succeed(r, worker, now, revision, asset).value;
            && Tells(u) && u.job.state.Succeeded? && u.job.resultRevisionId == revision && u.job.assetId == asset
            && u.job.attempts == r.job.attempts && u.ledger[u.job.attempts].worker == worker
  {
    assert OpenRow(r.ledger, r.job.attempts);
  }

  lemma FailureTells(r: Record, worker: string, now: Time, errorCode: string, retryDelay: int)
    requires RecordInv(r) && Tells(r) && Jobs.Fail(r, worker, now, errorCode, retryDelay).Ok?
    ensures var u := Jobs.Fail(r, worker, now, errorCode, retryDelay).value;
            Tells(u) && u.job.lastErrorCode == Some(errorCode) && u.ledger[u.job.attempts].worker == worker
  {
    assert OpenRow(r.ledger, r.job.attempts);
  }

  lemma RetryTells(r: Record, asset: Option<AssetView>, now: Time)
    requires RecordInv(r) && Tells(r) && Jobs.RetryJob(r, asset, now).Ok?
    ensures Tells(Jobs.RetryJob(r, asset, now).value)
  {}

  lemma ClaimTells(t: Table, op: JobRuns.Op, id: nat)
    requires RowsOk(t) && AllTell(t) && JobRuns.Possible(t, op) && op.Claim? && id in t
    ensures id in JobRuns.Step(t, op) && Tells(JobRuns.Step(t, op)[id])
  {
    if op.chosen == Some(id) {
      GrantTells(t[id], op.worker, op.now, op.duration);
    } else if id in Spent(t, op.kind, op.now, op.locked, op.chosen) {
      GiveUpTells(t[id], op.now);
    }
  }

  lemma FinishTells(t: Table, op: JobRuns.Op, id: nat)
    requires RowsOk(t) && AllTell(t) && JobRuns.Possible(t, op) && id in t && id in JobRuns.Step(t, op)
    requires op.Succeed? || op.Fail? || op.Purge?
    ensures Tells(JobRuns.Step(t, op)[id])
  {
    if id == op.id {
      match op
      case Succeed(_, worker, now, revision) =>
        if Jobs.Succeed(t[id], worker, now, revision, t[id].job.assetId).Ok? {
          SuccessTells(t[id], worker, now, revision, t[id].job.assetId);
        }
      case Fail(_, worker, now, errorCode, retryDelay) =>
        if Jobs.Fail(t[id], worker, now, errorCode, retryDelay).Ok? {
          FailureTells(t[id], worker, now, errorCode, retryDelay);
        }
      case Purge(_, worker, now) =>
        if Jobs.Succeed(t[id], worker, now, None, None).Ok? {
          SuccessTells(t[id], worker, now, None, None);
        }
    }
  }

  lemma StepTells(t: Table, op: JobRuns.Op)
    requires RowsOk(t) && AllTell(t) && JobRuns.Possible(t, op)
    ensures AllTell(JobRuns.Step(t, op))
  {
    forall id | id in JobRuns.Step(t, op)
      ensures Tells(JobRuns.Step(t, op)[id])
    {
      if id !in t {
        JobRuns.NewRows(t, op, id);
      } else if op.Claim? {
        ClaimTells(t, op, id);
      } else if op.RetryJob? {
        if op.id == id && Jobs.RetryJob(t[id], op.asset, op.now).Ok? {
          RetryTells(t[id], op.asset, op.now);
        }
      } else if !op.Insert? {
        FinishTells(t, op, id);
      }
    }
  }

  /** In every reachable table every row agrees with its ledger. */
  lemma {:induction false} RowsAgreeWithLedger(t: Table, ops: seq<JobRuns.Op>)
    requires TableInv(t) && AllTell(t) && JobRuns.IsRun(t, ops)
    ensures AllTell(JobRuns.Run(t, ops))
    decreases |ops|
  {
    if ops != [] {
      JobRuns.StepKeepsInv(t, ops[0]);
      StepTells(t, ops[0]);
      RowsAgreeWithLedger(JobRuns.Step(t, ops[0]), ops[1..]);
    }
  }

  // ---------------------------------------------------------------------------
  // What a caller is told
  // ---------------------------------------------------------------------------

  /** A job of the kind is up for grabs: it waits and its time has come, or its lease has run out. */
  predicate Open(j: Job, kind: string, now: Time) {
    && j.kind == kind
    && (if j.state.Running? then j.leaseExpiresAt.Some? && j.leaseExpiresAt.value <= now
        else Waiting(j.state) && j.availableAt <= now)
  }

  /** A claim touches no job that another transaction has locked and none that is not up for grabs. */
  lemma ClaimLeavesOthersAlone(t: Table, op: JobRuns.Op, id: nat)
    requires RowsOk(t) && JobRuns.Possible(t, op) && op.Claim? && id in t
    ensures id in JobRuns.Step(t, op) && JobRuns.Step(t, op).Keys == t.Keys
    ensures JobRuns.Step(t, op)[id] != t[id] ==> id !in op.locked && Open(t[id].job, op.kind, op.now)
  {}

  /** The job it chooses is the worker's for the time it asked for, under a new attempt that starts now. */
  lemma ClaimGrantsOne(t: Table, op: JobRuns.Op, id: nat)
    requires RowsOk(t) && JobRuns.Possible(t, op) && op.Claim? && op.chosen == Some(id)
    ensures id in t && id in JobRuns.Step(t, op)
    ensures var was, u := t[id].job, JobRuns.Step(t, op)[id];
            && u.job.state.Running? && u.job.leaseOwner == Some(op.worker)
            && u.job.leaseExpiresAt == Some(op.now + op.duration) && u.job.updatedAt == op.now
            && u.job.attempts == was.attempts + 1 <= was.maxAttempts
            && u.job.attempts in u.ledger && u.ledger[u.job.attempts] == Attempt(op.worker, op.now, None)
  {
    GrantKeepsInv(t[id], op.worker, op.now, op.duration);
  }

  /** Every other job it touches has failed, because its last attempt ran out. */
  lemma ClaimGivesUpTheRest(t: Table, op: JobRuns.Op, id: nat)
    requires RowsOk(t) && JobRuns.Possible(t, op) && op.Claim? && id in t
    requires op.chosen != Some(id) && JobRuns.Step(t, op)[id] != t[id]
    ensures var was, u := t[id].job, JobRuns.Step(t, op)[id];
            && u.job.state.Failed? && u.job.lastErrorCode == Some("lease_expired") && was.attempts == was.maxAttempts
            && was.attempts in u.ledger
            && u.ledger[was.attempts].finish == Some(Finish(LeaseExpired, u.job.lastErrorCode, op.now))
  {
    FinishGuardNeverFires(t[id], Finish(LeaseExpired, Some(LEASE_EXPIRED), op.now));
  }

  /** A claim that finds nothing has left no unlocked job with an attempt left that is up for grabs, and
      one that finds something takes the first of them: a run that expired before any waiting job, then
      the one available longest. */
  lemma ClaimTakesTheFirst(t: Table, op: JobRuns.Op, id: nat)
    requires RowsOk(t) && JobRuns.Possible(t, op) && op.Claim? && id in t && id !in op.locked
    requires Open(t[id].job, op.kind, op.now) && t[id].job.attempts < t[id].job.maxAttempts
    ensures op.chosen.Some?
    ensures var first, j := t[op.chosen.value].job, t[id].job;
            && (j.state.Running? ==> first.state.Running?)
            && (j.state.Running? == first.state.Running? ==> first.availableAt <= j.availableAt)
  {
    assert Candidate(t, op.kind, op.now, op.locked, id);
  }

  /** The answer to a worker that reports success: accepted exactly with a live lease, and then the
      revision is stored and every other job as it was. */
  lemma CompletionAnswers(t: Table, id: nat, worker: string, now: Time, revision: Option<string>)
    requires RowsOk(t) && AllTell(t)
    ensures var valid, r := ValidWorker(worker) && now != ZERO_TIME, Completed(t, id, worker, now, revision);
            && (r == Err(InvalidInput) <==> !valid) && (r == Err(NotFound) <==> valid && id !in t)
            && (r == Err(LeaseConflict) <==> valid && id in t && !OwnsLiveLease(t[id].job, worker, now))
            && (r.Ok? <==> valid && id in t && OwnsLiveLease(t[id].job, worker, now))
            && (r.Ok? ==>
                  && id in r.value && r.value == t[id := r.value[id]] && r.value[id].job.resultRevisionId == revision
                  && r.value[id].job.assetId == t[id].job.assetId && r.value[id].job.state.Succeeded?)
  {
    if id in t {
      SucceedExactlyWithLiveLease(t[id], worker, now, revision, t[id].job.assetId);
    }
  }

  /** The same for a worker that reports a failure, which must have a known code and a delay. */
  lemma FailureAnswers(t: Table, id: nat, worker: string, now: Time, errorCode: string, retryDelay: int)
    requires RowsOk(t) && AllTell(t)
    ensures var known := errorCode in SAFE_ERROR_CODES;
            var valid := ValidWorker(worker) && now != ZERO_TIME && retryDelay > 0;
            var r := FailedOnce(t, id, worker, now, errorCode, retryDelay);
            && (r == Err(InvalidErrorCode) <==> !known) && (r == Err(InvalidInput) <==> known && !valid)
            && (r == Err(NotFound) <==> known && valid && id !in t)
            && (r == Err(LeaseConflict) <==> known && valid && id in t && !OwnsLiveLease(t[id].job, worker, now))
            && (r.Ok? <==> known && valid && id in t && OwnsLiveLease(t[id].job, worker, now))
            && (r.Ok? ==> id in r.value && r.value == t[id := r.value[id]]
                          && r.value[id].job.lastErrorCode == Some(errorCode))
  {
    if id in t {
      FailExactlyWithLiveLease(t[id], worker, now, errorCode, retryDelay);
    }
  }

  /** A purge ends exactly under a live lease of a purge job; the other jobs of its asset go, and no
      other job is touched. */
  lemma PurgeAnswers(t: Table, id: nat, worker: string, now: Time)
    requires RowsOk(t)
    ensures var r := Purged(t, id, worker, now);
            && (r == Err(NotFound) <==> id !in t)
            && (r.Ok? <==> id in t && t[id].job.kind == "purge_asset" && t[id].job.assetId.Some?
                           && OwnsLiveLease(t[id].job, worker, now))
            && (r.Ok? ==>
                  && (forall k :: k in r.value <==> k in t && (k == id || t[k].job.assetId != t[id].job.assetId))
                  && (forall k :: k in r.value && k != id ==> r.value[k] == t[k])
                  && r.value[id].job.state.Succeeded? && r.value[id].job.assetId.None?)
  {
    if id in t {
      SucceedExactlyWithLiveLease(t[id], worker, now, None, None);
    }
  }

  /** A job is inserted exactly if its id is new, it may be attempted one to twenty times, and no active
      job does the same work; it is then queued, never attempted, and available at once. */
  lemma InsertionAnswers(t: Table, id: nat, workspaceId: string, assetId: Option<string>, kind: string,
                         maxAttempts: nat, now: Time)
    ensures var r := Inserted(t, id, workspaceId, assetId, kind, maxAttempts, now);
            && (r.Ok? <==> id !in t && 1 <= maxAttempts <= 20
                           && !(assetId.Some? && exists k :: k in t && Active(t[k].job.state)
                                                             && t[k].job.assetId == assetId && t[k].job.kind == kind))
            && (r.Ok? ==>
                  && id in r.value && r.value == t[id := r.value[id]] && r.value[id].ledger == map[]
                  && var j := r.value[id].job;
                     && j.id == id && j.workspaceId == workspaceId && j.assetId == assetId && j.kind == kind
                     && j.state.Queued? && j.attempts == 0 && j.maxAttempts == maxAttempts && j.availableAt == now
                     && j.createdAt == now && j.leaseOwner.None? && j.resultRevisionId.None?)
  {
    var inserted := FreshJob(id, workspaceId, assetId, kind, maxAttempts, now).job;
    forall k | k in t
      ensures SameWork(t[k].job, inserted) <==>
              assetId.Some? && Active(t[k].job.state) && t[k].job.assetId == assetId && t[k].job.kind == kind
    {}
  }

  /** What a refused retry is told. */
  lemma RetryAnswers(t: Table, id: nat, workspaceId: string, asset: Option<AssetView>, now: Time)
    requires RowsOk(t)
    ensures var r := Requeued(t, id, workspaceId, asset, now);
            var found := id in t && t[id].job.workspaceId == workspaceId;
            var failed := found && t[id].job.state.Failed? && t[id].job.resultRevisionId.None?
                && t[id].job.assetId.Some?;
            && (r == Err(NotFound) <==> !found)
            && (r == Err(RetryLimit) <==> failed && t[id].job.maxAttempts >= 20)
            && (r.Ok? || r == Err(NotRetryable) || r == Err(RetryLimit) || r == Err(NotFound))
            && (found && !failed ==> r == Err(NotRetryable))
  {}
}
