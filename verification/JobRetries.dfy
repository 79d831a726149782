/** When the administrator's retry brings a failed job back, and what it does to the asset. */
module JobRetries {
  import opened Common
  import opened Jobs
  import opened JobTable
  import opened JobAssets
  import JobRuns

  /** The asset of the job is in the state its kind works on: failed for a transcription, ready for a
      correction or a waveform, both outside the trash, and in purge for a purge. */
  predicate WaitsFor(kind: string, s: Asset) {
    || (kind == "mock_transcribe" && s.status == "failed" && !s.deleted)
    || ((kind == "llm_correct" || kind == "generate_waveform") && s.status == "ready" && !s.deleted)
    || (kind == "purge_asset" && s.status == "purging")
  }

  /** Another job of the kind is active on the asset. */
  ghost predicate Occupied(t: Table, id: nat, kind: string, a: string) {
    exists k :: k in t && k != id && t[k].job.kind == kind && t[k].job.assetId == Some(a) && Jobs.Active(t[k].job.state)
  }

  /** A job that may be given one more attempt at all. */
  predicate Exhaustible(j: Job) { j.state.Failed? && j.resultRevisionId.None? && j.maxAttempts < 20 }

  /** A retry succeeds if and only if the job has failed without a result and has had fewer than
      twenty attempts allowed, its asset is in the state its kind waits for, and no other job of the
      kind is active on the asset. */
  lemma RetrySucceedsExactly(w: World, id: nat, workspaceId: string, now: Time)
    requires Inv(w) && id in w.jobs && w.jobs[id].job.workspaceId == workspaceId && w.jobs[id].job.assetId.Some?
    ensures var j := w.jobs[id].job;
            var a := j.assetId.value;
            a in w.assets &&
            (Retried(w, id, workspaceId, now).Ok? <==>
               Exhaustible(j) && WaitsFor(j.kind, w.assets[a]) && !Occupied(w.jobs, id, j.kind, a))
  {
    var j := w.jobs[id].job;
    var a := j.assetId.value;
    assert Refers(w.assets, j.assetId, j.workspaceId);
    var r := Jobs.RetryJob(w.jobs[id], ViewOf(w, id, workspaceId), now);
    if r.Ok? {
      OccupiedIffSameWork(w.jobs, id, r.value.job, a);
    }
  }

  lemma OccupiedIffSameWork(t: Table, id: nat, j: Job, a: string)
    requires Jobs.Active(j.state) && j.assetId == Some(a)
    ensures Occupied(t, id, j.kind, a) <==> exists k :: k in t && k != id && SameWork(t[k].job, j)
  {
    if k :| k in t && k != id && SameWork(t[k].job, j) {
      assert t[k].job.kind == j.kind && t[k].job.assetId == Some(a) && Jobs.Active(t[k].job.state);
    }
    if Occupied(t, id, j.kind, a) {
      var k :| k in t && k != id && t[k].job.kind == j.kind && t[k].job.assetId == Some(a)
          && Jobs.Active(t[k].job.state);
      assert SameWork(t[k].job, j);
    }
  }

  /** What it does: the job is queued with one more attempt and its ledger as it was; a transcription
      makes its asset processing again; nothing else changes. */
  lemma RetryQueuesTheJob(w: World, id: nat, workspaceId: string, now: Time)
    requires Retried(w, id, workspaceId, now).Ok?
    ensures var u, j := Retried(w, id, workspaceId, now).value, w.jobs[id].job;
            && id in u.jobs && u.jobs == w.jobs[id := u.jobs[id]] && u.jobs[id].ledger == w.jobs[id].ledger
            && u.jobs[id].job.state.Queued? && u.jobs[id].job.attempts == j.attempts
            && u.jobs[id].job.maxAttempts == j.maxAttempts + 1 && u.jobs[id].job.availableAt == now
            && u.jobs[id].job.lastErrorCode.None? && u.jobs[id].job.assetId == j.assetId
            && (j.kind == "mock_transcribe" ==>
                  && j.assetId.Some? && j.assetId.value in w.assets
                  && u.assets == w.assets[j.assetId.value := w.assets[j.assetId.value].(status := "processing")])
            && (j.kind != "mock_transcribe" ==> u.assets == w.assets)
  {}

  // ---------------------------------------------------------------------------
  // After a final failure
  // ---------------------------------------------------------------------------

  lemma FailsAlone(w: World, u: Table, gone: set<nat>, id: nat, a: string)
    requires TableInv(w.jobs) && FailsJobs(w.jobs, u, gone) && id in gone
    requires w.jobs[id].job.assetId == Some(a) && !Occupied(w.jobs, id, w.jobs[id].job.kind, a)
    ensures !Occupied(u, id, w.jobs[id].job.kind, a)
  {
    forall k | k in u && k != id
      ensures !(u[k].job.kind == w.jobs[id].job.kind && u[k].job.assetId == Some(a) && Jobs.Active(u[k].job.state))
    {
      assert Fate(w.jobs[k].job, u[k].job, k in gone);
    }
  }

  /** An active job is alone of its kind on its asset. */
  lemma ActiveIsAlone(t: Table, id: nat, a: string)
    requires TableInv(t) && id in t && Jobs.Active(t[id].job.state) && t[id].job.assetId == Some(a)
    ensures !Occupied(t, id, t[id].job.kind, a)
  {}

  /** The failure steps leave the job failed, with its limits and without a result. */
  lemma FailedForGood(w: World, x: Action, id: nat)
    requires Inv(w) && Possible(w, x) && (x.Claim? || x.Fail?) && id in Gone(w, x)
    ensures FailsJobs(w.jobs, Next(w, x).jobs, Gone(w, x))
    ensures var j, f := w.jobs[id].job, Next(w, x).jobs[id].job;
            && f.state.Failed? && f.maxAttempts == j.maxAttempts && f.resultRevisionId == j.resultRevisionId
            && f.workspaceId == j.workspaceId && f.assetId == j.assetId && f.kind == j.kind
  {
    if x.Claim? {
      ClaimFails(w, x);
      GivenUpInClaim(w, x, id);
    } else {
      FailFails(w, x);
    }
  }

  lemma GivenUpInClaim(w: World, x: Action, id: nat)
    requires Inv(w) && Possible(w, x) && x.Claim? && id in Gone(w, x)
    ensures id in w.jobs && GivenUp(w.jobs[id], x.now).Ok?
    ensures id in Next(w, x).jobs && Next(w, x).jobs[id] == GivenUp(w.jobs[id], x.now).value
  {
    GiveUpKeepsInv(w.jobs[id], x.now);
  }

  /** The asset the job works on, after the step. */
  lemma AssetAfterFailure(w: World, x: Action, id: nat, a: string)
    requires Possible(w, x) && (x.Claim? || x.Fail?) && id in Gone(w, x) && id in w.jobs
    requires w.jobs[id].job.assetId == Some(a) && a in w.assets
    ensures Next(w, x).assets[a]
            == if w.assets[a].status == "processing" then w.assets[a].(status := "failed") else w.assets[a]
  {
    assert Hits(w.jobs, Gone(w, x), a);
  }

  /** A transcription that fails for good on an asset outside the trash can be retried exactly if it
      has had fewer than twenty attempts allowed and no result, and then its asset is processing. */
  lemma FailedTranscriptionCanBeRetried(w: World, x: Action, id: nat, a: string, now: Time)
    requires Inv(w) && Agrees(w) && Possible(w, x) && (x.Claim? || x.Fail?) && id in Gone(w, x)
    requires id in w.jobs && w.jobs[id].job.kind == "mock_transcribe" && w.jobs[id].job.assetId == Some(a)
    requires a in w.assets && !w.assets[a].deleted
    ensures var u, j := Next(w, x), w.jobs[id].job;
            && (Retried(u, id, j.workspaceId, now).Ok? <==> j.maxAttempts < 20 && j.resultRevisionId.None?)
            && (Retried(u, id, j.workspaceId, now).Ok? ==>
                  var v := Retried(u, id, j.workspaceId, now).value;
                  id in v.jobs && v.jobs[id].job.state.Queued? && a in v.assets && v.assets[a].status == "processing")
  {
    var u, j := Next(w, x), w.jobs[id].job;
    FailedForGood(w, x, id);
    assert Fate(j, u.jobs[id].job, true) && Works(j, a);
    assert AssetAgrees(w.jobs, a, w.assets[a]);
    AssetAfterFailure(w, x, id, a);
    ActiveIsAlone(w.jobs, id, a);
    FailsAlone(w, u.jobs, Gone(w, x), id, a);
    NextKeepsInv(w, x);
    RetrySucceedsExactly(u, id, j.workspaceId, now);
    if Retried(u, id, j.workspaceId, now).Ok? {
      RetryQueuesTheJob(u, id, j.workspaceId, now);
    }
  }

  /** A correction or a waveform that fails for good on an asset that is ready can be retried on the
      same terms, and the asset stays ready. */
  lemma FailedCorrectionCanBeRetried(w: World, x: Action, id: nat, a: string, now: Time)
    requires Inv(w) && Possible(w, x) && (x.Claim? || x.Fail?) && id in Gone(w, x)
    requires id in w.jobs && w.jobs[id].job.kind in {"llm_correct", "generate_waveform"}
             && w.jobs[id].job.assetId == Some(a)
    requires a in w.assets && !w.assets[a].deleted && w.assets[a].status == "ready"
    ensures var u, j := Next(w, x), w.jobs[id].job;
            && (Retried(u, id, j.workspaceId, now).Ok? <==> j.maxAttempts < 20 && j.resultRevisionId.None?)
            && (Retried(u, id, j.workspaceId, now).Ok? ==>
                  var v := Retried(u, id, j.workspaceId, now).value;
                  id in v.jobs && v.jobs[id].job.state.Queued? && a in v.assets && v.assets[a].status == "ready")
  {
    var u, j := Next(w, x), w.jobs[id].job;
    FailedForGood(w, x, id);
    assert Fate(j, u.jobs[id].job, true);
    AssetAfterFailure(w, x, id, a);
    ActiveIsAlone(w.jobs, id, a);
    FailsAlone(w, u.jobs, Gone(w, x), id, a);
    NextKeepsInv(w, x);
    RetrySucceedsExactly(u, id, j.workspaceId, now);
    if Retried(u, id, j.workspaceId, now).Ok? {
      RetryQueuesTheJob(u, id, j.workspaceId, now);
    }
  }

  /** In the trash nothing but a purge is retried, and a purge only there. */
  lemma OnlyPurgesAreRetriedInTrash(w: World, id: nat, workspaceId: string, now: Time)
    requires Inv(w) && Retried(w, id, workspaceId, now).Ok?
    ensures var j := w.jobs[id].job;
            && j.assetId.Some? && j.assetId.value in w.assets
            && (w.assets[j.assetId.value].deleted <==> j.kind == "purge_asset")
  {
    RetrySucceedsExactly(w, id, workspaceId, now);
    assert AssetOk(w.assets[w.jobs[id].job.assetId.value]);
  }
}
