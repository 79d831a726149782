/** Every run of the job table: any number of workers, creators, administrators and purges. */
module JobRuns {
  import opened Common
  import opened Jobs
  import opened JobTable

  /** One transaction. A Claim names the row it leases, if any. */
  datatype Op =
    | Insert(id: nat, workspaceId: string, assetId: Option<string>, kind: string, maxAttempts: nat, now: Time)
    | Claim(kind: string, worker: string, now: Time, duration: int, locked: set<nat>, chosen: Option<nat>)
    | Succeed(id: nat, worker: string, now: Time, revision: Option<string>)
    | Fail(id: nat, worker: string, now: Time, errorCode: string, retryDelay: int)
    | RetryJob(id: nat, workspaceId: string, asset: Option<AssetView>, now: Time)
    | Purge(id: nat, worker: string, now: Time)

  ghost predicate Possible(t: Table, op: Op) {
    op.Claim? ==> if op.chosen.Some? then Picks(t, op.kind, op.now, op.locked, op.chosen.value)
        else PicksNone(t, op.kind, op.now, op.locked)
  }

  function OrSame(t: Table, r: Result<Table, JobError>): Table { if r.Ok? then r.value else t }

  ghost function Step(t: Table, op: Op): Table
    requires Possible(t, op)
  {
    match op
    case Insert(id, workspaceId, assetId, kind, maxAttempts, now) =>
        OrSame(t, Inserted(t, id, workspaceId, assetId, kind, maxAttempts, now))
    case Claim(kind, worker, now, duration, locked, chosen) => Claimed(t, kind, worker, now, duration, locked, chosen)
    case Succeed(id, worker, now, revision) => OrSame(t, Completed(t, id, worker, now, revision))
    case Fail(id, worker, now, errorCode, retryDelay) =>
        OrSame(t, FailedOnce(t, id, worker, now, errorCode, retryDelay))
    case RetryJob(id, workspaceId, asset, now) => OrSame(t, Requeued(t, id, workspaceId, asset, now))
    case Purge(id, worker, now) => OrSame(t, Purged(t, id, worker, now))
  }

  // ---------------------------------------------------------------------------
  // The record of one job across one transaction
  // ---------------------------------------------------------------------------

  /** What one transaction may do to a record it keeps. */
  datatype Change = Kept | Grant(worker: string, now: Time) | Drop(now: Time) | Finish(worker: string, now: Time)
      | Requeue

  predicate ExpiredBy(j: Job, now: Time) { j.leaseExpiresAt.Some? && j.leaseExpiresAt.value <= now }

  /** r becomes u by the change, and stays sound. */
  ghost predicate Becomes(r: Record, u: Record, c: Change) {
    && RecordInv(u) && u.job.id == r.job.id && u.job.kind == r.job.kind
    && (Jobs.Active(u.job.state) ==> u.job.assetId == r.job.assetId && (c.Requeue? || Jobs.Active(r.job.state)))
    && match c
       case Kept => u == r
       case Grant(worker, now) =>
         && (r.job.state.Running? ==> ExpiredBy(r.job, now))
         && Jobs.Active(r.job.state) && (exists d :: Granted(r, worker, now, d) == Ok(u))
       case Drop(now) => r.job.state.Running? && ExpiredBy(r.job, now) && GivenUp(r, now) == Ok(u)
       case Finish(worker, now) =>
         && OwnsLiveLease(r.job, worker, now) && !u.job.state.Running? && !u.job.state.Queued?
         && u.job.attempts == r.job.attempts && u.job.maxAttempts == r.job.maxAttempts
         && (exists f :: FinishAttempt(r.ledger, r.job.attempts, f) == Ok(u.ledger))
       case Requeue =>
         && r.job.state.Failed? && u.job.state.Queued? && u.ledger == r.ledger && u.job.attempts == r.job.attempts
         && u.job.maxAttempts == r.job.maxAttempts + 1
  }

  /** The change a transaction makes to the record of a job. */
  ghost function ChangeOf(t: Table, op: Op, id: nat): Change
    requires Possible(t, op) && id in t && id in Step(t, op)
  {
    if Step(t, op)[id] == t[id] then Kept
    else match op
      case Claim(_, worker, now, _, _, chosen) => if chosen == Some(id) then Grant(worker, now) else Drop(now)
      case Succeed(_, worker, now, _) => Change.Finish(worker, now)
      case Fail(_, worker, now, _, _) => Change.Finish(worker, now)
      case Purge(_, worker, now) => Change.Finish(worker, now)
      case RetryJob(_, _, _, _) => Requeue
      case Insert(_, _, _, _, _, _) => Kept
  }

  lemma ClaimChanges(t: Table, op: Op, id: nat)
    requires RowsOk(t) && Possible(t, op) && op.Claim? && id in t
    ensures id in Step(t, op) && Becomes(t[id], Step(t, op)[id], ChangeOf(t, op, id))
  {
    if op.chosen == Some(id) {
      GrantKeepsInv(t[id], op.worker, op.now, op.duration);
    } else if id in Spent(t, op.kind, op.now, op.locked, op.chosen) {
      GiveUpKeepsInv(t[id], op.now);
    }
  }

  lemma SucceedChanges(t: Table, op: Op, id: nat)
    requires RowsOk(t) && op.Succeed? && id in t && id in Step(t, op)
    ensures Becomes(t[id], Step(t, op)[id], ChangeOf(t, op, id))
  {
    SucceedExactlyWithLiveLease(t[id], op.worker, op.now, op.revision, t[id].job.assetId);
  }

  lemma FailChanges(t: Table, op: Op, id: nat)
    requires RowsOk(t) && op.Fail? && id in t && id in Step(t, op)
    ensures Becomes(t[id], Step(t, op)[id], ChangeOf(t, op, id))
  {
    FailExactlyWithLiveLease(t[id], op.worker, op.now, op.errorCode, op.retryDelay);
  }

  lemma PurgeChanges(t: Table, op: Op, id: nat)
    requires RowsOk(t) && op.Purge? && id in t && id in Step(t, op)
    ensures Becomes(t[id], Step(t, op)[id], ChangeOf(t, op, id))
  {
    SucceedExactlyWithLiveLease(t[id], op.worker, op.now, None, None);
  }

  lemma RetryChanges(t: Table, op: Op, id: nat)
    requires RowsOk(t) && op.RetryJob? && id in t && id in Step(t, op)
    ensures Becomes(t[id], Step(t, op)[id], ChangeOf(t, op, id))
  {
    if op.id == id && Jobs.RetryJob(t[id], op.asset, op.now).Ok? {
      RetryKeepsInv(t[id], op.asset, op.now);
    }
  }

  lemma StepChanges(t: Table, op: Op, id: nat)
    requires RowsOk(t) && Possible(t, op) && id in t && id in Step(t, op)
    ensures Becomes(t[id], Step(t, op)[id], ChangeOf(t, op, id))
  {
    match op
    case Claim(_, _, _, _, _, _) => ClaimChanges(t, op, id);
    case Succeed(_, _, _, _) => SucceedChanges(t, op, id);
    case Fail(_, _, _, _, _) => FailChanges(t, op, id);
    case Purge(_, _, _) => PurgeChanges(t, op, id);
    case RetryJob(_, _, _, _) => RetryChanges(t, op, id);
    case Insert(_, _, _, _, _, _) =>
  }

  // ---------------------------------------------------------------------------
  // The invariant over runs
  // ---------------------------------------------------------------------------

  /** Rows appear only by insertion, with a job that has not run. */
  lemma NewRows(t: Table, op: Op, id: nat)
    requires RowsOk(t) && Possible(t, op) && id in Step(t, op) && id !in t
    ensures op.Insert? && op.id == id && Step(t, op) == t[id := Step(t, op)[id]]
    ensures RecordInv(Step(t, op)[id]) && Step(t, op)[id].job.id == id
    ensures forall k :: k in t ==> !SameWork(t[k].job, Step(t, op)[id].job)
  {
    if op.Insert? {
      var r := Inserted(t, op.id, op.workspaceId, op.assetId, op.kind, op.maxAttempts, op.now);
      if r.Ok? {
        FreshJobInv(op.id, op.workspaceId, op.assetId, op.kind, op.maxAttempts, op.now);
      }
    }
  }

  lemma StepKeepsRows(t: Table, op: Op)
    requires RowsOk(t) && Possible(t, op)
    ensures RowsOk(Step(t, op))
  {
    var u := Step(t, op);
    forall id | id in u
      ensures u[id].job.id == id && RecordInv(u[id])
    {
      if id in t {
        StepChanges(t, op, id);
      } else {
        NewRows(t, op, id);
      }
    }
  }

  lemma RequeueIsAlone(t: Table, op: Op, a: nat, b: nat)
    requires Possible(t, op) && a in t && a in Step(t, op) && b in t && b != a && ChangeOf(t, op, a).Requeue?
    ensures b in Step(t, op) && Step(t, op)[b] == t[b] && !SameWork(t[b].job, Step(t, op)[a].job)
  {}

  lemma StepKeepsWorkUnique(t: Table, op: Op, a: nat, b: nat)
    requires TableInv(t) && Possible(t, op) && a in Step(t, op) && b in Step(t, op)
             && SameWork(Step(t, op)[a].job, Step(t, op)[b].job)
    ensures a == b
  {
    if a !in t {
      NewRows(t, op, a);
    } else if b !in t {
      NewRows(t, op, b);
    } else {
      StepChanges(t, op, a);
      StepChanges(t, op, b);
      if a != b && ChangeOf(t, op, a).Requeue? {
        RequeueIsAlone(t, op, a, b);
      } else if a != b && ChangeOf(t, op, b).Requeue? {
        RequeueIsAlone(t, op, b, a);
      }
    }
  }

  lemma StepKeepsInv(t: Table, op: Op)
    requires TableInv(t) && Possible(t, op)
    ensures TableInv(Step(t, op))
  {
    StepKeepsRows(t, op);
    forall a, b | a in Step(t, op) && b in Step(t, op) && SameWork(Step(t, op)[a].job, Step(t, op)[b].job)
      ensures a == b
    {
      StepKeepsWorkUnique(t, op, a, b);
    }
  }

  ghost predicate IsRun(t: Table, ops: seq<Op>)
    decreases |ops|
  {
    ops == [] || (Possible(t, ops[0]) && IsRun(Step(t, ops[0]), ops[1..]))
  }

  ghost function Run(t: Table, ops: seq<Op>): Table
    requires IsRun(t, ops)
    decreases |ops|
  {
    if ops == [] then t else Run(Step(t, ops[0]), ops[1..])
  }

  /** In every reachable table each ledger is exactly 1..attempts with the last row open exactly
      while its worker holds the lease, waiting jobs have attempts left, failed jobs have none,
      no job has more than twenty, and no two active jobs do the same work on the same asset. */
  lemma {:induction false} ReachableInv(t: Table, ops: seq<Op>)
    requires TableInv(t) && IsRun(t, ops)
    ensures TableInv(Run(t, ops))
    decreases |ops|
  {
    if ops != [] {
      StepKeepsInv(t, ops[0]);
      ReachableInv(Step(t, ops[0]), ops[1..]);
    }
  }

  // ---------------------------------------------------------------------------
  // What runs cannot do
  // ---------------------------------------------------------------------------

  /** An attempt is closed only by its own worker while the lease is live, or by a Claim after the
      lease has run out, and then as expired. */
  lemma OnlyOwnerOrExpiryCloses(t: Table, op: Op, id: nat, n: nat)
    requires TableInv(t) && Possible(t, op) && id in t && id in Step(t, op) && OpenRow(t[id].ledger, n)
             && !OpenRow(Step(t, op)[id].ledger, n)
    ensures var row := t[id].ledger[n];
            var expiry := t[id].job.leaseExpiresAt;
            && n in Step(t, op)[id].ledger && expiry.Some?
            && if op.Claim?
               then expiry.value <= op.now && Step(t, op)[id].ledger[n].finish.value.outcome == LeaseExpired
               else (op.Succeed? || op.Fail? || op.Purge?) && op.worker == row.worker && op.now < expiry.value
  {
    StepChanges(t, op, id);
  }

  predicate Inserts(op: Op, id: nat) { op.Insert? && op.id == id }

  lemma NotInserted(t: Table, op: Op, id: nat)
    requires RowsOk(t) && Possible(t, op) && !Inserts(op, id) && id !in t
    ensures id !in Step(t, op)
  {
    if id in Step(t, op) {
      NewRows(t, op, id);
    }
  }

  lemma StepKeepsClosedRow(t: Table, op: Op, id: nat, n: nat)
    requires TableInv(t) && Possible(t, op) && id in t && n in t[id].ledger && t[id].ledger[n].finish.Some?
    ensures id in Step(t, op) ==> n in Step(t, op)[id].ledger && Step(t, op)[id].ledger[n] == t[id].ledger[n]
  {
    if id in Step(t, op) {
      StepChanges(t, op, id);
    }
  }

  /** A closed row of the ledger is never changed again, as long as its job exists. */
  lemma {:induction false} ClosedRowsAreFinal(t: Table, ops: seq<Op>, id: nat, n: nat)
    requires TableInv(t) && IsRun(t, ops) && (forall op :: op in ops ==> !Inserts(op, id))
    requires id in t ==> n in t[id].ledger && t[id].ledger[n].finish.Some?
    ensures var u := Run(t, ops); id in u ==> id in t && n in u[id].ledger && u[id].ledger[n] == t[id].ledger[n]
    decreases |ops|
  {
    if ops != [] {
      var u := Step(t, ops[0]);
      StepKeepsInv(t, ops[0]);
      assert !Inserts(ops[0], id);
      if id !in t {
        NotInserted(t, ops[0], id);
      } else {
        StepKeepsClosedRow(t, ops[0], id, n);
      }
      ClosedRowsAreFinal(u, ops[1..], id, n);
    }
  }

  /** A job that has succeeded stays so until it is purged. */
  lemma {:induction false} SucceededForever(t: Table, ops: seq<Op>, id: nat)
    requires TableInv(t) && IsRun(t, ops) && (forall op :: op in ops ==> !Inserts(op, id))
    requires id in t ==> t[id].job.state.Succeeded?
    ensures var u := Run(t, ops); id in u ==> id in t && u[id] == t[id]
    decreases |ops|
  {
    if ops != [] {
      var u := Step(t, ops[0]);
      StepKeepsInv(t, ops[0]);
      assert !Inserts(ops[0], id);
      if id !in t {
        NotInserted(t, ops[0], id);
      } else if id in u {
        StepChanges(t, ops[0], id);
      }
      SucceededForever(u, ops[1..], id);
    }
  }

  /** The transaction leases the job to the worker. */
  predicate LeasesTo(op: Op, id: nat, worker: string) { op.Claim? && op.worker == worker && op.chosen == Some(id) }

  lemma StepGivesNoLease(t: Table, op: Op, id: nat, worker: string)
    requires TableInv(t) && Possible(t, op) && !LeasesTo(op, id, worker)
    requires id in t ==> t[id].job.leaseOwner != Some(worker)
    ensures id in Step(t, op) ==> Step(t, op)[id].job.leaseOwner != Some(worker)
  {
    if id in Step(t, op) {
      if id in t {
        StepChanges(t, op, id);
      } else {
        NewRows(t, op, id);
      }
    }
  }

  lemma {:induction false} RunGivesNoLease(t: Table, ops: seq<Op>, id: nat, worker: string)
    requires TableInv(t) && IsRun(t, ops) && (forall op :: op in ops ==> !LeasesTo(op, id, worker))
    requires id in t ==> t[id].job.leaseOwner != Some(worker)
    ensures id in Run(t, ops) ==> Run(t, ops)[id].job.leaseOwner != Some(worker)
    decreases |ops|
  {
    if ops != [] {
      assert !LeasesTo(ops[0], id, worker);
      StepKeepsInv(t, ops[0]);
      StepGivesNoLease(t, ops[0], id, worker);
      RunGivesNoLease(Step(t, ops[0]), ops[1..], id, worker);
    }
  }

  /** A worker that does not hold the lease of a job, because it never did or because the job has
      been taken from it, can neither complete, fail nor purge it before it leases this very job
      again, however many other jobs it claims and finishes meanwhile. */
  lemma NoFinishWithoutLease(t: Table, ops: seq<Op>, id: nat, worker: string, now: Time)
    requires TableInv(t) && IsRun(t, ops) && (forall op :: op in ops ==> !LeasesTo(op, id, worker))
    requires id in t ==> t[id].job.leaseOwner != Some(worker)
    ensures forall revision :: Completed(Run(t, ops), id, worker, now, revision).Err?
    ensures forall code, delay :: FailedOnce(Run(t, ops), id, worker, now, code, delay).Err?
    ensures Purged(Run(t, ops), id, worker, now).Err?
  {
    RunGivesNoLease(t, ops, id, worker);
  }

  /** How often the run leases the job. */
  function Leases(ops: seq<Op>, id: nat): nat {
    if ops == [] then 0
    else (if ops[0].Claim? && ops[0].chosen == Some(id) then 1 else 0) + Leases(ops[1..], id)
  }

  /** attempts counts the leases, whatever else happens; so no job is ever leased more than twenty
      times in its life, administrator retries included. */
  lemma {:induction false} AttemptsCountLeases(t: Table, ops: seq<Op>, id: nat)
    requires TableInv(t) && IsRun(t, ops) && (forall op :: op in ops ==> !Inserts(op, id)) && id in t
             && id in Run(t, ops)
    ensures Run(t, ops)[id].job.attempts == t[id].job.attempts + Leases(ops, id)
    ensures t[id].job.attempts + Leases(ops, id) <= Run(t, ops)[id].job.maxAttempts <= 20
    decreases |ops|
  {
    ReachableInv(t, ops);
    if ops != [] {
      var u := Step(t, ops[0]);
      StepKeepsInv(t, ops[0]);
      if id !in u {
        GoneForGood(u, ops[1..], id);
      } else {
        StepChanges(t, ops[0], id);
        LeaseRaisesAttempts(t, ops[0], id);
        AttemptsCountLeases(u, ops[1..], id);
      }
    }
  }

  lemma LeaseRaisesAttempts(t: Table, op: Op, id: nat)
    requires TableInv(t) && Possible(t, op) && id in t && id in Step(t, op)
    ensures Step(t, op)[id].job.attempts == t[id].job.attempts + (if op.Claim? && op.chosen == Some(id) then 1 else 0)
  {
    StepChanges(t, op, id);
    if op.Claim? && op.chosen == Some(id) {
      GrantKeepsInv(t[id], op.worker, op.now, op.duration);
    }
  }

  lemma {:induction false} GoneForGood(t: Table, ops: seq<Op>, id: nat)
    requires TableInv(t) && IsRun(t, ops) && (forall op :: op in ops ==> !Inserts(op, id)) && id !in t
    ensures id !in Run(t, ops)
    decreases |ops|
  {
    if ops != [] {
      assert !Inserts(ops[0], id);
      StepKeepsInv(t, ops[0]);
      NotInserted(t, ops[0], id);
      GoneForGood(Step(t, ops[0]), ops[1..], id);
    }
  }

  /** No job is stuck: every unfinished job satisfies Claim's condition from the time it is
      available, or its lease runs out, on; every job that does not is finished. */
  lemma NoJobIsStuck(t: Table, id: nat, now: Time)
    requires TableInv(t) && id in t
    ensures var j := t[id].job;
            Due(j, j.kind, now) <==>
              (Waiting(j.state) && now >= j.availableAt) || (j.state.Running? && now >= j.leaseExpiresAt.value)
    ensures !Jobs.Active(t[id].job.state) ==>
            t[id].job.state.Succeeded? || (t[id].job.state.Failed? && t[id].job.attempts == t[id].job.maxAttempts)
  {}

  /** A lease is bound to the worker's name, not to the attempt: a call left over from an expired
      attempt ends the newer attempt exactly when the same name has leased the job again and that
      lease is live; any other new owner makes it fail. */
  lemma LateCallEndsNewAttempt(t: Table, id: nat, late: string, owner: string, now: Time, duration: int, later: Time,
                               revision: Option<string>)
    requires TableInv(t) && id in t && t[id].job.state.Running? && t[id].job.leaseOwner == Some(late)
    requires ExpiredBy(t[id].job, now) && !Exhausted(t[id].job) && ValidWorker(late) && later != ZERO_TIME
    ensures var u := GrantOne(t, id, owner, now, duration);
            && id in u && OpenRow(u[id].ledger, t[id].job.attempts + 1)
            && (Completed(u, id, late, later, revision).Ok? <==> owner == late && later < now + duration)
            && (Completed(u, id, late, later, revision).Ok? ==>
                  !OpenRow(Completed(u, id, late, later, revision).value[id].ledger, t[id].job.attempts + 1))
  {
    GrantKeepsInv(t[id], owner, now, duration);
    var u := GrantOne(t, id, owner, now, duration);
    SucceedExactlyWithLiveLease(u[id], late, later, revision, u[id].job.assetId);
  }

  lemma RunCons(t: Table, op: Op, rest: seq<Op>)
    requires Possible(t, op) && IsRun(Step(t, op), rest)
    ensures IsRun(t, [op] + rest) && Run(t, [op] + rest) == Run(Step(t, op), rest)
  {
    assert ([op] + rest)[1..] == rest;
  }

  /** A claim on a table of one job that is due and has an attempt left leases it. */
  lemma OnlyJobIsLeased(r: Record, worker: string, now: Time, duration: int)
    requires r.job.id == 0 && Due(r.job, TRANSCRIBE, now) && !Exhausted(r.job) && Granted(r, worker, now, duration).Ok?
    ensures var t, op := map[0 := r], Claim(TRANSCRIBE, worker, now, duration, {}, Some(0));
            Possible(t, op) && Step(t, op) == map[0 := Granted(r, worker, now, duration).value]
  {
    var t := map[0 := r];
    assert Spent(t, TRANSCRIBE, now, {}, Some(0)) == {};
    assert GiveUpAll(t, {}, now) == t;
  }

  /** Inserted at 100, leased by "w" until 110, leased by "w" again at 120 until 130. */
  const LATE_CALL: seq<Op> := [
    Claim(TRANSCRIBE, "w", 120, 10, {}, Some(0)),
    Succeed(0, "w", 125, None)]

  const LATE_RUN: seq<Op> := [
    Insert(0, "workspace", None, TRANSCRIBE, 3, 100),
    Claim(TRANSCRIBE, "w", 100, 10, {}, Some(0))] + LATE_CALL

  const FRESH: Record := FreshJob(0, "workspace", None, TRANSCRIBE, 3, 100)

  lemma LateCallFrom(first: Record)
    requires Granted(FRESH, "w", 100, 10) == Ok(first)
    ensures IsRun(map[0 := first], LATE_CALL) && LateCallSucceeded(Run(map[0 := first], LATE_CALL))
  {
    var second := Granted(first, "w", 120, 10).value;
    OnlyJobIsLeased(first, "w", 120, 10);
    var end := Step(map[0 := second], LATE_CALL[1]);
    assert IsRun(end, []) && Run(end, []) == end;
    RunCons(map[0 := second], LATE_CALL[1], []);
    RunCons(map[0 := first], LATE_CALL[0], [LATE_CALL[1]] + []);
    assert [LATE_CALL[0]] + ([LATE_CALL[1]] + []) == LATE_CALL;
  }

  /** Attempt 1 is on record as expired, attempt 2 as the one that succeeded. */
  ghost predicate LateCallSucceeded(t: Table) {
    && 0 in t && t[0].job.state.Succeeded? && t[0].job.attempts == 2
    && 1 in t[0].ledger && t[0].ledger[1].finish == Some(Jobs.Finish(LeaseExpired, Some(LEASE_EXPIRED), 120))
    && 2 in t[0].ledger && t[0].ledger[2].finish == Some(Jobs.Finish(Success, None, 125))
  }

  /** The failing case is reached from the empty table: the call left over from attempt 1 succeeds
      and closes attempt 2. */
  lemma LateCallRun()
    ensures IsRun(map[], LATE_RUN) && LateCallSucceeded(Run(map[], LATE_RUN))
  {
    var t: Table := map[];
    assert Step(t, LATE_RUN[0]) == map[0 := FRESH];
    OnlyJobIsLeased(FRESH, "w", 100, 10);
    LateCallFrom(Granted(FRESH, "w", 100, 10).value);
    RunCons(map[0 := FRESH], LATE_RUN[1], LATE_CALL);
    RunCons(t, LATE_RUN[0], [LATE_RUN[1]] + LATE_CALL);
    assert [LATE_RUN[0]] + ([LATE_RUN[1]] + LATE_CALL) == LATE_RUN;
  }
}
