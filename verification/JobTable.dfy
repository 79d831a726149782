/** The job table: Claim's candidate loop and the other transactions on its rows. */
module JobTable {
  import opened Common
  import opened Jobs

  type Table = map<nat, Record>

  // ---------------------------------------------------------------------------
  // Claim
  // ---------------------------------------------------------------------------

  /** Row id is not locked by another transaction and satisfies Claim's WHERE clause. */
  predicate Candidate(t: Table, kind: string, now: Time, locked: set<nat>, id: nat) {
    id in t && id !in locked && Due(t[id].job, kind, now)
  }

  /** The row Claim leases: the first in its order that has an attempt left. */
  ghost predicate Picks(t: Table, kind: string, now: Time, locked: set<nat>, id: nat) {
    && Candidate(t, kind, now, locked, id) && !Exhausted(t[id].job)
    && forall other :: Candidate(t, kind, now, locked, other) && other != id && !Exhausted(t[other].job) ==>
       Precedes(t[id].job, t[other].job)
  }

  ghost predicate PicksNone(t: Table, kind: string, now: Time, locked: set<nat>) {
    forall id :: Candidate(t, kind, now, locked, id) ==> Exhausted(t[id].job)
  }

  /** The rows given up on the way: candidates without an attempt left that come before it. */
  ghost function Spent(t: Table, kind: string, now: Time, locked: set<nat>, chosen: Option<nat>): set<nat>
    requires chosen.Some? ==> chosen.value in t
  {
    set id | id in t && Candidate(t, kind, now, locked, id) && Exhausted(t[id].job)
             && (chosen.Some? ==> Precedes(t[id].job, t[chosen.value].job))
  }

  function GiveUpAll(t: Table, gone: set<nat>, now: Time): Table {
    map id | id in t :: if id in gone && GivenUp(t[id], now).Ok? then GivenUp(t[id], now).value else t[id]
  }

  function GrantOne(t: Table, id: nat, worker: string, now: Time, duration: int): Table {
    if id in t && Granted(t[id], worker, now, duration).Ok? then t[id := Granted(t[id], worker, now, duration).value]
        else t
  }

  /** The table after a Claim that leases the chosen row, or none. */
  ghost function Claimed(t: Table, kind: string, worker: string, now: Time, duration: int, locked: set<nat>,
                         chosen: Option<nat>): Table
    requires chosen.Some? ==> chosen.value in t
  {
    var rest := GiveUpAll(t, Spent(t, kind, now, locked, chosen), now);
    if chosen.None? then rest else GrantOne(rest, chosen.value, worker, now, duration)
  }

  // ---------------------------------------------------------------------------
  // The invariant of the table
  // ---------------------------------------------------------------------------

  predicate SameWork(a: Job, b: Job) {
    Jobs.Active(a.state) && Jobs.Active(b.state) && a.assetId.Some? && a.assetId == b.assetId && a.kind == b.kind
  }

  ghost predicate RowsOk(t: Table) {
    forall id :: id in t ==> t[id].job.id == id && RecordInv(t[id])
  }

  /** Every record is sound, and no two active jobs do the same work on the same asset. */
  ghost predicate TableInv(t: Table) {
    && RowsOk(t)
    && (forall a, b :: a in t && b in t && SameWork(t[a].job, t[b].job) ==> a == b)
  }

  // ---------------------------------------------------------------------------
  // The other transactions
  // ---------------------------------------------------------------------------

  /** INSERT: refused by the primary key, the check on max_attempts or the index on active work. */
  function Inserted(t: Table, id: nat, workspaceId: string, assetId: Option<string>, kind: string, maxAttempts: nat,
                    now: Time): Result<Table, JobError> {
    var r := FreshJob(id, workspaceId, assetId, kind, maxAttempts, now);
    if id in t || maxAttempts < 1 || maxAttempts > MAX_ATTEMPTS_LIMIT
       || exists k :: k in t && SameWork(t[k].job, r.job) then Err(Duplicate)
    else Ok(t[id := r])
  }

  function Stored(t: Table, id: nat, r: Result<Record, JobError>): Result<Table, JobError> {
    match r
    case Ok(record) => Ok(t[id := record])
    case Err(e) => Err(e)
  }

  function Completed(t: Table, id: nat, worker: string, now: Time, revision: Option<string>): Result<Table, JobError> {
    if !ValidWorker(worker) || now == ZERO_TIME then Err(InvalidInput)
    else if id !in t then Err(NotFound)
    else Stored(t, id, Succeed(t[id], worker, now, revision, t[id].job.assetId))
  }

  function FailedOnce(t: Table, id: nat, worker: string, now: Time, errorCode: string,
                      retryDelay: int): Result<Table, JobError> {
    if errorCode !in SAFE_ERROR_CODES then Err(InvalidErrorCode)
    else if !ValidWorker(worker) || now == ZERO_TIME || retryDelay <= 0 then Err(InvalidInput)
    else if id !in t then Err(NotFound)
    else Stored(t, id, Fail(t[id], worker, now, errorCode, retryDelay))
  }

  /** RetryJob: queueing again is also refused by the index on active work. */
  function Requeued(t: Table, id: nat, workspaceId: string, asset: Option<AssetView>,
                    now: Time): Result<Table, JobError> {
    if id !in t || t[id].job.workspaceId != workspaceId then Err(NotFound)
    else
      var r := RetryJob(t[id], asset, now);
      if r.Ok? && exists k :: k in t && k != id && SameWork(t[k].job, r.value.job) then Err(NotRetryable)
      else Stored(t, id, r)
  }

  /** The job part of a purge's final transaction: the asset's other jobs go, the purge succeeds. */
  function Purged(t: Table, id: nat, worker: string, now: Time): Result<Table, JobError> {
    if id !in t then Err(NotFound)
    else if t[id].job.kind != PURGE || t[id].job.assetId.None? then Err(LeaseConflict)
    else match Succeed(t[id], worker, now, None, None)
      case Err(e) => Err(e)
      case Ok(r) => Ok((map k | k in t && (t[k].job.assetId != t[id].job.assetId || k == id) :: if k == id then r
                        else t[k]))
  }

  // ---------------------------------------------------------------------------
  // The repository
  // ---------------------------------------------------------------------------

  class JobRepository {
    var rows: Table

    constructor ()
      ensures rows == map[]
    {
      rows := map[];
    }

    /** The SELECT of Claim on a transaction's view of the table. */
    method First(t: Table, kind: string, now: Time, locked: set<nat>) returns (r: Option<nat>)
      requires RowsOk(t)
      ensures r.None? ==> forall id :: !Candidate(t, kind, now, locked, id)
      ensures r.Some? ==> Candidate(t, kind, now, locked, r.value)
      ensures r.Some? ==> forall id :: Candidate(t, kind, now, locked, id) && id != r.value ==>
              Precedes(t[r.value].job, t[id].job)
    {
      r := None;
      var todo := t.Keys;
      while todo != {}
        invariant todo <= t.Keys
        invariant r.None? ==> forall id :: id in t && id !in todo ==> !Candidate(t, kind, now, locked, id)
        invariant r.Some? ==> Candidate(t, kind, now, locked, r.value) && r.value !in todo
        invariant r.Some? ==> forall id :: id !in todo && Candidate(t, kind, now, locked, id) && id != r.value ==>
                  Precedes(t[r.value].job, t[id].job)
      {
        var id :| id in todo;
        todo := todo - {id};
        if Candidate(t, kind, now, locked, id) && (r.None? || Precedes(t[id].job, t[r.value].job)) {
          r := Some(id);
        }
      }
    }

    /** Claim. On NoClaimableJob no unlocked row of the kind is due any more. */
    method Claim(kind: string, worker: string, now: Time, duration: int, locked: set<nat>)
      returns (r: Result<Job, JobError>)
      requires TableInv(rows)
      modifies this
      ensures (r == Err(InvalidInput)) <==> (kind == "" || !ValidWorker(worker) || now == ZERO_TIME || duration <= 0)
      ensures r.Ok? ==> Picks(old(rows), kind, now, locked, r.value.id)
                        && rows == Claimed(old(rows), kind, worker, now, duration, locked, Some(r.value.id))
                        && r.value.id in rows && r.value == rows[r.value.id].job
      ensures r.Err? ==> r.error == InvalidInput || r.error == NoClaimableJob
      ensures r == Err(NoClaimableJob) ==> PicksNone(old(rows), kind, now, locked)
                                           && rows == Claimed(old(rows), kind, worker, now, duration, locked, None)
                                           && forall id :: !Candidate(rows, kind, now, locked, id)
      ensures r == Err(InvalidInput) ==> rows == old(rows)
    {
      if kind == "" || !ValidWorker(worker) || now == ZERO_TIME || duration <= 0 {
        return Err(InvalidInput);
      }
      var t := rows;
      ghost var gone: set<nat> := {};
      assert GiveUpAll(t, {}, now) == t;
      while true
        invariant rows == old(rows) && Progress(rows, t, gone, kind, now, locked)
        decreases rows.Keys - gone
      {
        var found := First(t, kind, now, locked);
        if found.None? {
          SpentIsGone(rows, kind, now, locked, gone, None);
          rows := t;
          return Err(NoClaimableJob);
        }
        var id := found.value;
        StillThere(rows, kind, now, locked, gone, id);
        CandidatesLeft(rows, kind, now, locked, gone, id);
        if t[id].job.state.Running? && t[id].job.attempts >= t[id].job.maxAttempts {
          GiveUpMore(rows, t, gone, id, kind, now, locked);
          t := t[id := GivenUp(t[id], now).value];
          gone := gone + {id};
        } else {
          GrantEnds(rows, t, gone, id, kind, worker, now, duration, locked);
          t := t[id := Granted(t[id], worker, now, duration).value];
          rows := t;
          return Ok(t[id].job);
        }
      }
      assert false;
    }

    method Insert(id: nat, workspaceId: string, assetId: Option<string>, kind: string, maxAttempts: nat, now: Time)
      returns (r: Result<Job, JobError>)
      modifies this
      ensures match Inserted(old(rows), id, workspaceId, assetId, kind, maxAttempts, now)
              case Ok(t) => rows == t && r == Ok(t[id].job)
              case Err(e) => rows == old(rows) && r == Err(e)
    {
      if id in rows || maxAttempts < 1 || maxAttempts > MAX_ATTEMPTS_LIMIT { return Err(Duplicate); }
      var record := FreshJob(id, workspaceId, assetId, kind, maxAttempts, now);
      if exists k :: k in rows && SameWork(rows[k].job, record.job) { return Err(Duplicate); }
      rows := rows[id := record];
      return Ok(record.job);
    }

    method Succeed(id: nat, worker: string, now: Time, revision: Option<string>) returns (r: Result<Job, JobError>)
      modifies this
      ensures match Completed(old(rows), id, worker, now, revision)
              case Ok(t) => rows == t && r == Ok(t[id].job)
              case Err(e) => rows == old(rows) && r == Err(e)
    {
      if !ValidWorker(worker) || now == ZERO_TIME { return Err(InvalidInput); }
      if id !in rows { return Err(NotFound); }
      var j := rows[id].job;
      if !OwnsLiveLease(j, worker, now) { return Err(LeaseConflict); }
      var finished := FinishAttempt(rows[id].ledger, j.attempts, Finish(Success, None, now));
      if finished.Err? { return Err(finished.error); }
      j := j.(state := Succeeded, leaseOwner := None, leaseExpiresAt := None, lastErrorCode := None,
              resultRevisionId := revision, updatedAt := now);
      rows := rows[id := Record(j, finished.value)];
      return Ok(j);
    }

    method Fail(id: nat, worker: string, now: Time, errorCode: string, retryDelay: int)
      returns (r: Result<Job, JobError>)
      modifies this
      ensures match FailedOnce(old(rows), id, worker, now, errorCode, retryDelay)
              case Ok(t) => rows == t && r == Ok(t[id].job)
              case Err(e) => rows == old(rows) && r == Err(e)
    {
      if errorCode !in SAFE_ERROR_CODES { return Err(InvalidErrorCode); }
      if !ValidWorker(worker) || now == ZERO_TIME || retryDelay <= 0 { return Err(InvalidInput); }
      if id !in rows { return Err(NotFound); }
      var j := rows[id].job;
      if !OwnsLiveLease(j, worker, now) { return Err(LeaseConflict); }
      var next, outcome, availableAt := RetryWait, Retry, now + retryDelay;
      if j.attempts >= j.maxAttempts {
        next, outcome, availableAt := Failed, Failure, j.availableAt;
      }
      var finished := FinishAttempt(rows[id].ledger, j.attempts, Finish(outcome, Some(errorCode), now));
      if finished.Err? { return Err(finished.error); }
      j := j.(state := next, availableAt := availableAt, leaseOwner := None, leaseExpiresAt := None,
              lastErrorCode := Some(errorCode), updatedAt := now);
      rows := rows[id := Record(j, finished.value)];
      return Ok(j);
    }

    method RetryJob(id: nat, workspaceId: string, asset: Option<AssetView>, now: Time)
      returns (r: Result<Job, JobError>)
      modifies this
      ensures match Requeued(old(rows), id, workspaceId, asset, now)
              case Ok(t) => rows == t && r == Ok(t[id].job)
              case Err(e) => rows == old(rows) && r == Err(e)
    {
      if id !in rows || rows[id].job.workspaceId != workspaceId { return Err(NotFound); }
      var j := rows[id].job;
      if !j.state.Failed? || j.resultRevisionId.Some? || j.assetId.None? { return Err(NotRetryable); }
      if j.maxAttempts >= MAX_ATTEMPTS_LIMIT { return Err(JobError.RetryLimit); }
      if !RetryEligible(j.kind, asset) { return Err(NotRetryable); }
      j := j.(state := Queued, maxAttempts := j.maxAttempts + 1, availableAt := now, leaseOwner := None,
              leaseExpiresAt := None,
              lastErrorCode := None, updatedAt := now);
      if exists k :: k in rows && k != id && SameWork(rows[k].job, j) { return Err(NotRetryable); }
      rows := rows[id := Record(j, rows[id].ledger)];
      return Ok(j);
    }
  }

  /** Between two selections: the rows in gone have been given up, and precede all that are left. */
  ghost predicate Progress(t0: Table, t: Table, gone: set<nat>, kind: string, now: Time, locked: set<nat>) {
    && RowsOk(t0) && RowsOk(t) && t == GiveUpAll(t0, gone, now)
    && gone <= t0.Keys && (forall id :: id in gone ==> Candidate(t0, kind, now, locked, id) && Exhausted(t0[id].job))
    && (forall id, other :: id in gone && other !in gone && Candidate(t0, kind, now, locked, other) ==>
        Precedes(t0[id].job, t0[other].job))
  }

  lemma GiveUpMore(t0: Table, t: Table, gone: set<nat>, id: nat, kind: string, now: Time, locked: set<nat>)
    requires Progress(t0, t, gone, kind, now, locked)
    requires Candidate(t0, kind, now, locked, id) && id !in gone && Exhausted(t0[id].job)
    requires forall other :: other !in gone && other != id && Candidate(t0, kind, now, locked, other) ==>
             Precedes(t0[id].job, t0[other].job)
    ensures id in t && GivenUp(t[id], now).Ok?
    ensures Progress(t0, t[id := GivenUp(t[id], now).value], gone + {id}, kind, now, locked)
  {
    GiveUpKeepsInv(t0[id], now);
    GiveUpOneMore(t0, gone, id, now);
    RowsOkAfter(t, id, GivenUp(t0[id], now).value);
  }

  lemma RowsOkAfter(t: Table, id: nat, r: Record)
    requires RowsOk(t) && RecordInv(r) && r.job.id == id
    ensures RowsOk(t[id := r])
  {}

  /** The selected row has an attempt left: leasing it ends the claim as specified. */
  lemma GrantEnds(t0: Table, t: Table, gone: set<nat>, id: nat, kind: string, worker: string, now: Time,
                  duration: int, locked: set<nat>)
    requires Progress(t0, t, gone, kind, now, locked)
    requires Candidate(t0, kind, now, locked, id) && id !in gone && !Exhausted(t0[id].job) && id in t && t[id] == t0[id]
    requires forall other :: other !in gone && other != id && Candidate(t0, kind, now, locked, other) ==>
             Precedes(t0[id].job, t0[other].job)
    ensures Granted(t[id], worker, now, duration).Ok? && Granted(t[id], worker, now, duration).value.job.id == id
    ensures Picks(t0, kind, now, locked, id)
    ensures t[id := Granted(t[id], worker, now, duration).value]
            == Claimed(t0, kind, worker, now, duration, locked, Some(id))
  {
    GrantKeepsInv(t[id], worker, now, duration);
    SpentIsGone(t0, kind, now, locked, gone, Some(id));
  }

  /** A given-up row is no candidate any more; any other row is as it was. */
  lemma StillThere(t: Table, kind: string, now: Time, locked: set<nat>, gone: set<nat>, id: nat)
    requires RowsOk(t) && gone <= t.Keys && forall g :: g in gone ==> Exhausted(t[g].job)
    ensures Candidate(GiveUpAll(t, gone, now), kind, now, locked, id) <==>
            Candidate(t, kind, now, locked, id) && id !in gone
    ensures id in t && id !in gone ==> GiveUpAll(t, gone, now)[id] == t[id]
  {
    if id in gone {
      GiveUpKeepsInv(t[id], now);
    }
  }

  lemma GiveUpOneMore(t: Table, gone: set<nat>, id: nat, now: Time)
    requires id in t && id !in gone && GivenUp(t[id], now).Ok?
    ensures var u := GiveUpAll(t, gone, now);
            u[id] == t[id] && u[id := GivenUp(u[id], now).value] == GiveUpAll(t, gone + {id}, now)
  {
    var u, v := GiveUpAll(t, gone, now), GiveUpAll(t, gone + {id}, now);
    assert u[id := GivenUp(u[id], now).value].Keys == v.Keys;
  }

  /** The row just selected precedes every candidate that is left. */
  lemma CandidatesLeft(t: Table, kind: string, now: Time, locked: set<nat>, gone: set<nat>, id: nat)
    requires RowsOk(t) && gone <= t.Keys && forall g :: g in gone ==> Exhausted(t[g].job)
    requires var u := GiveUpAll(t, gone, now);
             Candidate(u, kind, now, locked, id)
                 && forall other :: Candidate(u, kind, now, locked, other) && other != id ==>
                    Precedes(u[id].job, u[other].job)
    ensures forall other :: other !in gone && other != id && Candidate(t, kind, now, locked, other) ==>
            Precedes(t[id].job, t[other].job)
  {
    StillThere(t, kind, now, locked, gone, id);
    forall other | other !in gone && other != id && Candidate(t, kind, now, locked, other)
      ensures Precedes(t[id].job, t[other].job)
    {
      StillThere(t, kind, now, locked, gone, other);
    }
  }

  lemma SpentIsGone(t: Table, kind: string, now: Time, locked: set<nat>, gone: set<nat>, chosen: Option<nat>)
    requires RowsOk(t) && gone <= t.Keys && forall g :: g in gone ==>
             Candidate(t, kind, now, locked, g) && Exhausted(t[g].job)
    requires forall id, other :: id in gone && other !in gone && Candidate(t, kind, now, locked, other) ==>
             Precedes(t[id].job, t[other].job)
    requires chosen.Some? ==>
             Candidate(t, kind, now, locked, chosen.value) && chosen.value !in gone && !Exhausted(t[chosen.value].job)
    requires chosen.Some? ==>
             forall other :: other !in gone && other != chosen.value && Candidate(t, kind, now, locked, other) ==>
                 Precedes(t[chosen.value].job, t[other].job)
    requires chosen.None? ==> forall id :: !Candidate(GiveUpAll(t, gone, now), kind, now, locked, id)
    ensures Spent(t, kind, now, locked, chosen) == gone
    ensures chosen.None? ==> PicksNone(t, kind, now, locked)
    ensures chosen.Some? ==> Picks(t, kind, now, locked, chosen.value)
  {
    forall id | id in t
      ensures id in Spent(t, kind, now, locked, chosen) <==> id in gone
      ensures chosen.None? && Candidate(t, kind, now, locked, id) ==> id in gone
    {
      StillThere(t, kind, now, locked, gone, id);
    }
  }
}
