/** The life of an asset as a diagram: which steps take it from which status to which, what each
    request demands, and what trashing and restoring leave behind. */
module AssetLife {
  import opened Common
  import opened Jobs
  import opened JobTable
  import JobRuns
  import opened JobAssets

  /** A job of the kind can be inserted for the asset: its number is free and none of the kind is active. */
  ghost predicate Insertable(t: Table, id: nat, kind: string, a: string) {
    id !in t && forall k :: k in t ==>
        !(Jobs.Active(t[k].job.state) && t[k].job.assetId == Some(a) && t[k].job.kind == kind)
  }

  lemma InsertedExactly(t: Table, id: nat, workspaceId: string, a: string, kind: string, maxAttempts: nat, now: Time)
    ensures Inserted(t, id, workspaceId, Some(a), kind, maxAttempts, now).Ok? <==>
              Insertable(t, id, kind, a) && 1 <= maxAttempts <= 20
  {
    var j := FreshJob(id, workspaceId, Some(a), kind, maxAttempts, now).job;
    forall k | k in t
      ensures SameWork(t[k].job, j) <==>
              Jobs.Active(t[k].job.state) && t[k].job.assetId == Some(a) && t[k].job.kind == kind
    {}
  }

  // ---------------------------------------------------------------------------
  // What a request demands
  // ---------------------------------------------------------------------------

  /** What the requests on one asset demand of it. */
  ghost predicate Demanded(w: World, x: Action) {
    match x
    case NewAsset(a, _) => a !in w.assets
    case StartUpload(a) =>
      a in w.assets && !w.assets[a].deleted && !w.assets[a].open && w.assets[a].status in {"draft", "uploading"}
    case FinishUpload(a, id, _) => a in w.assets && w.assets[a].open && Insertable(w.jobs, id, "generate_waveform", a)
    case FailUpload(a) => a in w.assets && w.assets[a].open
    case Transcribe(id, workspaceId, a, maxAttempts, _) =>
      && a in w.assets && w.assets[a].workspaceId == workspaceId && w.assets[a].original && !w.assets[a].deleted
      && w.assets[a].status == "ready" && 1 <= maxAttempts <= 20 && Insertable(w.jobs, id, "mock_transcribe", a)
    case Correct(id, workspaceId, a, maxAttempts, _) =>
      && a in w.assets && w.assets[a].workspaceId == workspaceId && w.assets[a].transcript && !w.assets[a].deleted
      && 1 <= maxAttempts <= 20 && Insertable(w.jobs, id, "llm_correct", a)
    case Trash(a) => a in w.assets && !w.assets[a].deleted
    case Restore(a) => a in w.assets && w.assets[a].deleted && w.assets[a].status == "trashed"
    case RequestPurge(id, a, _) =>
      && a in w.assets && w.assets[a].deleted && w.assets[a].status in {"trashed", "purging"} && id !in w.jobs
      && forall k :: k in w.jobs && w.jobs[k].job.assetId == Some(a) ==> !Jobs.Active(w.jobs[k].job.state)
    case Purge(id, worker, now, same) =>
      && same && id in w.jobs && w.jobs[id].job.kind == "purge_asset" && OwnsLiveLease(w.jobs[id].job, worker, now)
      && w.jobs[id].job.assetId.Some? && w.jobs[id].job.assetId.value in w.assets
      && w.assets[w.jobs[id].job.assetId.value].status == "purging"
    case _ => true
  }

  /** Steps of workers on jobs, which demand a lease and nothing of the asset. */
  predicate OfWorkers(x: Action) { x.Claim? || x.Commit? || x.Finish? || x.Fail? || x.Retry? }

  lemma UploadRequests(w: World, x: Action)
    requires Inv(w) && (x.NewAsset? || x.StartUpload? || x.FinishUpload? || x.FailUpload?)
    ensures Next(w, x) != w <==> Demanded(w, x)
  {
    if x.FinishUpload? && x.asset in w.assets {
      InsertedExactly(w.jobs, x.id, w.assets[x.asset].workspaceId, x.asset, WAVEFORM, 3, x.now);
      if Demanded(w, x) {
        assert x.id in Next(w, x).jobs;
      }
    } else if x.NewAsset? && x.asset !in w.assets {
      assert x.asset in Next(w, x).assets;
    } else if Demanded(w, x) {
      assert Next(w, x).assets[x.asset].open != w.assets[x.asset].open;
    }
  }

  lemma WorkRequests(w: World, x: Action)
    requires Inv(w) && (x.Transcribe? || x.Correct?)
    ensures Next(w, x) != w <==> Demanded(w, x)
  {
    var kind := if x.Transcribe? then TRANSCRIBE else CORRECT;
    InsertedExactly(w.jobs, x.id, x.workspaceId, x.asset, kind, x.maxAttempts, x.now);
    if Demanded(w, x) {
      assert x.id in Next(w, x).jobs;
    }
  }

  lemma TrashRequests(w: World, x: Action)
    requires Inv(w) && (x.Trash? || x.Restore? || x.RequestPurge? || x.Purge?)
    ensures Next(w, x) != w <==> Demanded(w, x)
  {
    match x
    case RequestPurge(id, a, now) =>
      if a in w.assets {
        InsertedExactly(w.jobs, id, w.assets[a].workspaceId, a, PURGE, 10, now);
      }
      if Demanded(w, x) {
        assert id in Next(w, x).jobs;
      }
    case Purge(id, worker, now, same) =>
      if id in w.jobs {
        SucceedExactlyWithLiveLease(w.jobs[id], worker, now, None, None);
      }
      if Demanded(w, x) {
        assert w.jobs[id].job.assetId.value !in Next(w, x).assets;
      }
    case Trash(a) =>
      if Demanded(w, x) {
        assert Next(w, x).assets[a].deleted;
      }
    case Restore(a) =>
      if Demanded(w, x) {
        assert !Next(w, x).assets[a].deleted;
      }
  }

  /** A request is granted exactly if the asset meets what it demands; otherwise nothing changes. */
  lemma RequestsAreGrantedExactly(w: World, x: Action)
    requires Inv(w) && Possible(w, x) && !OfWorkers(x)
    ensures Next(w, x) != w <==> Demanded(w, x)
  {
    if x.NewAsset? || x.StartUpload? || x.FinishUpload? || x.FailUpload? {
      UploadRequests(w, x);
    } else if x.Transcribe? || x.Correct? {
      WorkRequests(w, x);
    } else {
      TrashRequests(w, x);
    }
  }

  // ---------------------------------------------------------------------------
  // The diagram
  // ---------------------------------------------------------------------------

  /** The edge along which a step takes an asset from s to u. */
  predicate Edge(x: Action, s: Asset, u: Asset) {
    match x
    case StartUpload(_) => s.status in {"draft", "uploading"} && !s.deleted
        && u == s.(status := "uploading", open := true)
    case FinishUpload(_, _, _) => s.open && u == s.(status := "ready", open := false, original := true)
    case FailUpload(_) => s.open && u == s.(status := "failed", open := false)
    case Transcribe(_, _, _, _, _) => s.status == "ready" && !s.deleted && s.original && u == s.(status := "processing")
    case Commit(_, _, _, _) => s.status == "processing" && !s.deleted && u == s.(status := "ready", transcript := true)
    case Claim(_, _, _, _, _, _) => s.status == "processing" && u == s.(status := "failed")
    case Fail(_, _, _, _, _) => s.status == "processing" && u == s.(status := "failed")
    case Retry(_, _, _) => s.status == "failed" && !s.deleted && u == s.(status := "processing")
    case Trash(_) => !s.deleted && u == s.(status := "trashed", before := Some(s.status), deleted := true)
    case Restore(_) =>
      s.deleted && s.status == "trashed" && s.before.Some?
          && u == s.(status := s.before.value, before := None, deleted := false)
    case RequestPurge(_, _, _) => s.deleted && s.status in {"trashed", "purging"} && u == s.(status := "purging")
    case _ => false
  }

  /** The asset a step is about, if it names one or one of its jobs. */
  function About(w: World, x: Action): Option<string> {
    match x
    case NewAsset(a, _) => Some(a)
    case StartUpload(a) => Some(a)
    case FinishUpload(a, _, _) => Some(a)
    case FailUpload(a) => Some(a)
    case Transcribe(_, _, a, _, _) => Some(a)
    case Trash(a) => Some(a)
    case Restore(a) => Some(a)
    case RequestPurge(_, a, _) => Some(a)
    case Commit(id, _, _, _) => if id in w.jobs then w.jobs[id].job.assetId else None
    case Fail(id, _, _, _, _) => if id in w.jobs then w.jobs[id].job.assetId else None
    case Retry(id, _, _) => if id in w.jobs then w.jobs[id].job.assetId else None
    case Purge(id, _, _, _) => if id in w.jobs then w.jobs[id].job.assetId else None
    case _ => None
  }

  lemma RetryFollowsEdge(w: World, x: Action, a: string)
    requires Inv(w) && x.Retry? && a in w.assets && a in Next(w, x).assets && Next(w, x).assets[a] != w.assets[a]
    ensures Edge(x, w.assets[a], Next(w, x).assets[a]) && About(w, x) == Some(a)
  {}

  /** Every change of an asset, in any step, is along an edge of the diagram, and only Claim, which gives
      up jobs, changes an asset that the step does not name. */
  lemma AssetsFollowTheDiagram(w: World, x: Action, a: string)
    requires Inv(w) && Possible(w, x) && a in w.assets && a in Next(w, x).assets && Next(w, x).assets[a] != w.assets[a]
    ensures Edge(x, w.assets[a], Next(w, x).assets[a]) && (x.Claim? || About(w, x) == Some(a))
  {
    if x.Retry? {
      RetryFollowsEdge(w, x, a);
    }
  }

  /** Assets appear only by creation, as drafts, and disappear only by the end of their purge. */
  lemma AssetsComeAndGo(w: World, x: Action, a: string)
    requires Inv(w) && Possible(w, x)
    ensures a !in w.assets && a in Next(w, x).assets ==>
              x.NewAsset? && x.asset == a
              && Next(w, x).assets[a] == Asset(x.workspaceId, "draft", None, false, false, false, false)
    ensures a in w.assets && a !in Next(w, x).assets ==>
              && x.Purge? && About(w, x) == Some(a) && w.assets[a].status == "purging"
              && forall k :: k in Next(w, x).jobs ==> Next(w, x).jobs[k].job.assetId != Some(a)
  {}

  /** Trashing and restoring gives the asset back as it was. */
  lemma RestoreUndoesTrash(w: World, a: string)
    requires Inv(w) && a in w.assets && !w.assets[a].deleted
    ensures var t := Next(w, Trash(a));
            && t.jobs == w.jobs && t.assets[a].deleted && t.assets[a].status == "trashed"
            && Next(t, Restore(a)) == w.(assets := w.assets[a := w.assets[a].(before := None)])
  {
    assert Next(w, Trash(a)).assets[a := w.assets[a].(before := None)] == w.assets[a := w.assets[a].(before := None)];
  }

  /** A purge that is requested waits for a worker, and is the only active job of its asset. */
  lemma RequestedPurgeIsAlone(w: World, id: nat, a: string, now: Time)
    requires Inv(w) && Demanded(w, RequestPurge(id, a, now))
    ensures var u := Next(w, RequestPurge(id, a, now));
            && id in u.jobs && u.jobs[id].job.kind == "purge_asset" && u.jobs[id].job.assetId == Some(a)
            && u.jobs[id].job.state.Queued? && u.jobs[id].job.maxAttempts == 10 && u.jobs[id].job.availableAt == now
            && u.jobs[id].job.workspaceId == w.assets[a].workspaceId
            && (forall k :: k in u.jobs && k != id && u.jobs[k].job.assetId == Some(a) ==>
                !Jobs.Active(u.jobs[k].job.state))
  {
    InsertedExactly(w.jobs, id, w.assets[a].workspaceId, a, PURGE, 10, now);
  }

  /** An upload that ends queues the waveform of its asset. */
  lemma UploadQueuesWaveform(w: World, a: string, id: nat, now: Time)
    requires Inv(w) && Demanded(w, FinishUpload(a, id, now))
    ensures var u := Next(w, FinishUpload(a, id, now));
            && id in u.jobs && u.jobs == w.jobs[id := u.jobs[id]] && u.jobs[id].job.kind == "generate_waveform"
            && u.jobs[id].job.assetId == Some(a) && u.jobs[id].job.state.Queued? && u.jobs[id].job.maxAttempts == 3
            && u.jobs[id].job.workspaceId == w.assets[a].workspaceId
  {
    InsertedExactly(w.jobs, id, w.assets[a].workspaceId, a, WAVEFORM, 3, now);
  }
}
