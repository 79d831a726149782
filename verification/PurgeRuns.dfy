/** Every run of purge workers on one asset: any number of them, crashing anywhere, next to other
    transactions and other users of the store. */
module PurgeRuns {
  import opened Common
  import opened ObjectStore
  import opened AssetPurge

  /** DeleteParts in progress: the parts of the upload that were there when the listing began and
      no page has returned yet, and those of the present page that are still to be deleted. */
  datatype Listing = Listing(upload: string, unlisted: set<Key>, page: set<Key>)

  /** A worker between Load and its last transaction: what it still has to delete. */
  datatype Worker =
    | Working(inventory: Inventory, uploads: set<string>, listing: Option<Listing>, keys: set<Key>)
    | Ended

  /** The worker whose transaction deleted the rows, and its inventory. */
  datatype Finished = Finished(worker: nat, inventory: Inventory)

  /** The last four are history: the objects workers have deleted, which worker has begun to list
      the parts of which upload, which parts were written since a worker began to list their
      upload, and who deleted the rows. */
  datatype World = World(
    rows: Option<Rows>, store: Store, workers: map<nat, Worker>,
    emptied: set<Key>, begun: set<(nat, string)>, late: set<(nat, Key)>, finished: Option<Finished>)

  datatype Step =
    | Begin(worker: nat)
    | ListParts(worker: nat, upload: string)
    | NextPage(worker: nat, page: set<Key>)
    | DropPart(worker: nat, key: Key)
    | EndList(worker: nat)
    | DropObject(worker: nat, key: Key)
    | Finalize(worker: nat, leaseLive: bool)
    | Stop(worker: nat)
    | ChangeRows(rows: Rows)
    | Write(key: Key, bytes: Bytes)
    | Erase(key: Key)

  predicate At(w: World, c: nat) { c in w.workers && w.workers[c].Working? }
  predicate Lists(w: World, c: nat) { At(w, c) && w.workers[c].listing.Some? }

  predicate PartOf(k: Key, upload: string) { k.PartKey? && k.upload == upload }

  /** What can happen. A listing returns, over its pages, every part that is there all the while, and
      may return others; a deleted object is not written again, every other free key may be. */
  predicate Enabled(w: World, s: Step) {
    match s
    case Begin(c) => c !in w.workers && w.rows.Some? && Load(w.rows.value).Some?
    case ListParts(c, u) => At(w, c) && w.workers[c].listing.None? && u in w.workers[c].uploads
    case NextPage(c, page) =>
      && Lists(w, c) && w.workers[c].listing.value.page == {}
      && forall k :: k in page ==> k in w.store && PartOf(k, w.workers[c].listing.value.upload)
    case DropPart(c, k) => Lists(w, c) && k in w.workers[c].listing.value.page
    case EndList(c) =>
      && Lists(w, c) && w.workers[c].listing.value.page == {}
      && forall k :: k in w.workers[c].listing.value.unlisted ==> k !in w.store
    case DropObject(c, k) =>
      && At(w, c) && w.workers[c].uploads == {} && w.workers[c].listing.None?
      && k in w.workers[c].keys && k in w.workers[c].inventory.rows.objects
    case Finalize(c, _) => At(w, c) && w.workers[c].uploads == {} && w.workers[c].listing.None?
        && w.workers[c].keys == {}
    case Stop(c) => At(w, c)
    case ChangeRows(_) => w.rows.Some?
    case Write(k, _) => k !in w.store && k !in w.emptied
    case Erase(_) => true
  }

  function PartsOf(store: Store, upload: string): set<Key> {
    set k | k in store && PartOf(k, upload)
  }

  /** The part, for each worker that has begun to list its upload. */
  function Watching(begun: set<(nat, string)>, k: Key): set<(nat, Key)> {
    set p | p in begun && PartOf(k, p.1) :: (p.0, k)
  }

  function Put(w: World, c: nat, k: Worker): World { w.(workers := w.workers[c := k]) }

  function Take(w: World, s: Step): World
    requires Enabled(w, s)
  {
    match s
    case Begin(c) =>
      var i := Load(w.rows.value).value;
      Put(w, c, Working(i, i.rows.uploads, None, i.rows.objects.Keys))
    case ListParts(c, u) =>
      Put(w, c, w.workers[c].(listing := Some(Listing(u, PartsOf(w.store, u), {})))).(begun := w.begun + {(c, u)})
    case NextPage(c, page) =>
      var l := w.workers[c].listing.value;
      Put(w, c, w.workers[c].(listing := Some(l.(unlisted := l.unlisted - page, page := page))))
    case DropPart(c, k) =>
      var l := w.workers[c].listing.value;
      Put(w, c, w.workers[c].(listing := Some(l.(page := l.page - {k})))).(store := w.store - {k})
    case EndList(c) =>
      Put(w, c, w.workers[c].(listing := None, uploads := w.workers[c].uploads - {w.workers[c].listing.value.upload}))
    case DropObject(c, k) =>
      if Deletable(w.store, k, w.workers[c].inventory.rows.objects[k])
      then Put(w, c, w.workers[c].(keys := w.workers[c].keys - {k})).(store := w.store - {k},
                                                                      emptied := w.emptied + {k})
      else Put(w, c, Ended)
    case Finalize(c, leaseLive) =>
      var i := w.workers[c].inventory;
      if w.rows.Some? && leaseLive && Load(w.rows.value).Some? && Load(w.rows.value).value.fingerprint == i.fingerprint
      then Put(w, c, Ended).(rows := None, finished := Some(Finished(c, i)))
      else Put(w, c, Ended)
    case Stop(c) => Put(w, c, Ended)
    case ChangeRows(rows) => w.(rows := Some(rows))
    case Write(k, bytes) => w.(store := w.store[k := bytes], late := w.late + Watching(w.begun, k))
    case Erase(k) => w.(store := w.store - {k})
  }

  // ---------------------------------------------------------------------------
  // The invariant
  // ---------------------------------------------------------------------------

  /** Of the parts of a listed upload, all that are left are still to come or were written since. */
  ghost predicate ListingInv(w: World, c: nat, l: Listing) {
    && (c, l.upload) in w.begun
    && (forall k :: k in l.page ==> PartOf(k, l.upload))
    && (forall k :: k in w.store && PartOf(k, l.upload) ==> k in l.unlisted || k in l.page || (c, k) in w.late)
  }

  /** No part of the upload is left but those written since worker c began to list them. */
  ghost predicate PartsGone(w: World, c: nat, upload: string) {
    (c, upload) in w.begun && forall k :: k in w.store && PartOf(k, upload) ==> (c, k) in w.late
  }

  ghost predicate WorkerInv(w: World, c: nat, k: Worker) {
    k.Working? ==>
      && k.inventory.fingerprint == Fingerprint(k.inventory.rows)
      && k.uploads <= k.inventory.rows.uploads
      && (forall u :: u in k.inventory.rows.uploads && u !in k.uploads ==> PartsGone(w, c, u))
      && (k.listing.Some? ==> k.listing.value.upload in k.uploads && ListingInv(w, c, k.listing.value))
      && k.inventory.rows.objects.Keys - k.keys <= w.emptied
  }

  /** All that is left of what the rows name are parts written since c began to list them. */
  ghost predicate Cleared(w: World, c: nat, rows: Rows) {
    && (forall u :: u in rows.uploads ==> PartsGone(w, c, u))
    && rows.objects.Keys <= w.emptied
  }

  ghost predicate Inv(w: World) {
    && (forall k :: k in w.store ==> k !in w.emptied)
    && (forall c :: c in w.workers ==> WorkerInv(w, c, w.workers[c]))
    && (w.rows.None? <==> w.finished.Some?)
    && (w.finished.Some? ==> Cleared(w, w.finished.value.worker, w.finished.value.inventory.rows))
  }

  /** Whatever another does: what it deletes is gone, what it writes is new, what it begins is begun. */
  ghost predicate Grows(w: World, v: World) {
    && w.emptied <= v.emptied && w.begun <= v.begun && w.late <= v.late
    && forall k, c :: k in v.store && k !in w.store && k.PartKey? && (c, k.upload) in w.begun ==> (c, k) in v.late
  }

  lemma TakeGrows(w: World, s: Step)
    requires Enabled(w, s)
    ensures Grows(w, Take(w, s))
  {}

  lemma PartsStayGone(w: World, v: World, c: nat, upload: string)
    requires Grows(w, v) && PartsGone(w, c, upload)
    ensures PartsGone(v, c, upload)
  {}

  lemma WorkerStays(w: World, v: World, c: nat, k: Worker)
    requires Grows(w, v) && WorkerInv(w, c, k)
    ensures WorkerInv(v, c, k)
  {
    if k.Working? {
      forall u | u in k.inventory.rows.uploads && u !in k.uploads
        ensures PartsGone(v, c, u)
      {
        PartsStayGone(w, v, c, u);
      }
    }
  }

  lemma EndListClears(w: World, c: nat)
    requires Enabled(w, EndList(c)) && WorkerInv(w, c, w.workers[c])
    ensures WorkerInv(Take(w, EndList(c)), c, Take(w, EndList(c)).workers[c])
  {
    var v, l := Take(w, EndList(c)), w.workers[c].listing.value;
    forall u | u in w.workers[c].inventory.rows.uploads && u !in v.workers[c].uploads
      ensures PartsGone(v, c, u)
    {
      if u != l.upload {
        PartsStayGone(w, v, c, u);
      }
    }
  }

  /** The worker that takes the step. */
  lemma ActorKeepsInv(w: World, s: Step, c: nat)
    requires Inv(w) && Enabled(w, s) && c in Take(w, s).workers
             && (c in w.workers ==> Take(w, s).workers[c] != w.workers[c])
    ensures WorkerInv(Take(w, s), c, Take(w, s).workers[c])
  {
    TakeGrows(w, s);
    var v := Take(w, s);
    if c in w.workers {
      assert WorkerInv(w, c, w.workers[c]);
      WorkerStays(w, v, c, w.workers[c]);
      if s.EndList? {
        EndListClears(w, c);
      }
    }
  }

  lemma TakeKeepsInv(w: World, s: Step)
    requires Inv(w) && Enabled(w, s)
    ensures Inv(Take(w, s))
  {
    var v := Take(w, s);
    TakeGrows(w, s);
    forall c | c in v.workers
      ensures WorkerInv(v, c, v.workers[c])
    {
      if c in w.workers && v.workers[c] == w.workers[c] {
        WorkerStays(w, v, c, w.workers[c]);
      } else {
        ActorKeepsInv(w, s, c);
      }
    }
    if v.finished.Some? {
      FinishedKeepsCleared(w, s);
    }
  }

  lemma FinishedKeepsCleared(w: World, s: Step)
    requires Inv(w) && Enabled(w, s) && Take(w, s).finished.Some?
    ensures var f := Take(w, s).finished.value; Cleared(Take(w, s), f.worker, f.inventory.rows)
  {
    var v := Take(w, s);
    var f := v.finished.value;
    TakeGrows(w, s);
    if w.finished != v.finished {
      assert WorkerInv(w, s.worker, w.workers[s.worker]);
    }
    forall u | u in f.inventory.rows.uploads
      ensures PartsGone(v, f.worker, u)
    {
      PartsStayGone(w, v, f.worker, u);
    }
  }

  // ---------------------------------------------------------------------------
  // Runs
  // ---------------------------------------------------------------------------

  predicate IsRun(w: World, run: seq<Step>)
    decreases |run|
  {
    run == [] || (Enabled(w, run[0]) && IsRun(Take(w, run[0]), run[1..]))
  }

  function Run(w: World, run: seq<Step>): World
    requires IsRun(w, run)
    decreases |run|
  {
    if run == [] then w else Run(Take(w, run[0]), run[1..])
  }

  lemma {:induction false} RunKeepsInv(w: World, run: seq<Step>)
    requires Inv(w) && IsRun(w, run)
    ensures Inv(Run(w, run))
    decreases |run|
  {
    if run != [] {
      TakeKeepsInv(w, run[0]);
      RunKeepsInv(Take(w, run[0]), run[1..]);
    }
  }

  function Initially(rows: Rows, store: Store): World {
    World.World(Some(rows), store, map[], {}, {}, {}, None)
  }

  // ---------------------------------------------------------------------------
  // What a purge leaves
  // ---------------------------------------------------------------------------

  /** Of what the rows name, exactly the parts written since worker c began to list their upload are
      left. */
  ghost predicate LeavesOnlyLate(w: World, c: nat, rows: Rows) {
    forall k :: k in w.store ==> (Named(rows, k) <==> OfUploads(k, rows.uploads) && (c, k) in w.late)
  }

  lemma ClearedLeavesOnlyLate(w: World, c: nat, rows: Rows)
    requires (forall k :: k in w.store ==> k !in w.emptied) && Cleared(w, c, rows)
    ensures LeavesOnlyLate(w, c, rows)
  {
    forall k | k in w.store && OfUploads(k, rows.uploads)
      ensures (c, k) in w.late
    {
      assert PartsGone(w, c, k.upload) && PartOf(k, k.upload);
    }
  }

  /** Whatever happened before, and whatever rows were added while workers were at it: in the step in
      which worker c deletes the rows, the store holds of the keys they name exactly the parts that
      were written since c began to list the parts of their upload and not removed since. */
  lemma RowsVanishLast(rows: Rows, store: Store, run: seq<Step>, s: Step)
    requires IsRun(Initially(rows, store), run)
    requires var w := Run(Initially(rows, store), run); w.rows.Some? && Enabled(w, s) && Take(w, s).rows.None?
    ensures var w := Run(Initially(rows, store), run); s.Finalize? && LeavesOnlyLate(w, s.worker, w.rows.value)
  {
    RunKeepsInv(Initially(rows, store), run);
    var w := Run(Initially(rows, store), run);
    assert WorkerInv(w, s.worker, w.workers[s.worker]);
    ClearedLeavesOnlyLate(w, s.worker, w.rows.value);
  }

  /** And so it stays: at any time after that, what exists of the keys the finalized inventory named
      are exactly such parts. */
  lemma PurgedBytesStayGone(rows: Rows, store: Store, run: seq<Step>)
    requires IsRun(Initially(rows, store), run) && Run(Initially(rows, store), run).rows.None?
    ensures var w := Run(Initially(rows, store), run);
            w.finished.Some? && LeavesOnlyLate(w, w.finished.value.worker, w.finished.value.inventory.rows)
  {
    RunKeepsInv(Initially(rows, store), run);
    var w := Run(Initially(rows, store), run);
    ClearedLeavesOnlyLate(w, w.finished.value.worker, w.finished.value.inventory.rows);
  }

  /** The history in terms of the run: a write of the part that comes after the listing. */
  ghost predicate WrittenAfter(begun: bool, run: seq<Step>, c: nat, k: Key)
    requires k.PartKey?
  {
    exists j :: 0 <= j < |run| && run[j].Write? && run[j].key == k
                && (begun || exists i :: 0 <= i < j && run[i] == ListParts(c, k.upload))
  }

  lemma WrittenAfterFirst(begun: bool, run: seq<Step>, c: nat, k: Key)
    requires k.PartKey? && run != []
    ensures WrittenAfter(begun, run, c, k) <==>
              || (begun && run[0].Write? && run[0].key == k)
              || WrittenAfter(begun || run[0] == ListParts(c, k.upload), run[1..], c, k)
  {
    var next := begun || run[0] == ListParts(c, k.upload);
    if WrittenAfter(begun, run, c, k) {
      var j :| 0 <= j < |run| && run[j].Write? && run[j].key == k
               && (begun || exists i :: 0 <= i < j && run[i] == ListParts(c, k.upload));
      if j > 0 {
        LaterListing(begun, run, c, k, j);
        assert run[1..][j - 1] == run[j];
      }
    }
    if WrittenAfter(next, run[1..], c, k) {
      var j :| 0 <= j < |run[1..]| && run[1..][j].Write? && run[1..][j].key == k
               && (next || exists i :: 0 <= i < j && run[1..][i] == ListParts(c, k.upload));
      assert run[j + 1] == run[1..][j];
      EarlierListing(begun, run, c, k, j);
    }
  }

  lemma LaterListing(begun: bool, run: seq<Step>, c: nat, k: Key, j: nat)
    requires k.PartKey? && 0 < j < |run|
    requires begun || exists i :: 0 <= i < j && run[i] == ListParts(c, k.upload)
    ensures (begun || run[0] == ListParts(c, k.upload))
            || exists i :: 0 <= i < j - 1 && run[1..][i] == ListParts(c, k.upload)
  {
    if !begun && run[0] != ListParts(c, k.upload) {
      var i :| 0 <= i < j && run[i] == ListParts(c, k.upload);
      assert run[1..][i - 1] == run[i];
    }
  }

  lemma EarlierListing(begun: bool, run: seq<Step>, c: nat, k: Key, j: nat)
    requires k.PartKey? && j + 1 < |run|
    requires (begun || run[0] == ListParts(c, k.upload))
             || exists i :: 0 <= i < j && run[1..][i] == ListParts(c, k.upload)
    ensures begun || exists i :: 0 <= i < j + 1 && run[i] == ListParts(c, k.upload)
  {
    if !begun && run[0] != ListParts(c, k.upload) {
      var i :| 0 <= i < j && run[1..][i] == ListParts(c, k.upload);
      assert run[i + 1] == run[1..][i];
    }
  }

  lemma {:induction false} LateFrom(w: World, run: seq<Step>, c: nat, k: Key)
    requires IsRun(w, run) && k.PartKey?
    ensures (c, k) in Run(w, run).late <==>
              (c, k) in w.late || WrittenAfter((c, k.upload) in w.begun, run, c, k)
    decreases |run|
  {
    if run != [] {
      LateFrom(Take(w, run[0]), run[1..], c, k);
      WrittenAfterFirst((c, k.upload) in w.begun, run, c, k);
      OneStepLate(w, run[0], c, k);
    }
  }

  lemma OneStepLate(w: World, s: Step, c: nat, k: Key)
    requires Enabled(w, s) && k.PartKey?
    ensures var v := Take(w, s);
            && ((c, k.upload) in v.begun <==> (c, k.upload) in w.begun || s == ListParts(c, k.upload))
            && ((c, k) in v.late <==> (c, k) in w.late || ((c, k.upload) in w.begun && s.Write? && s.key == k))
  {
    if (c, k.upload) in w.begun && s.Write? && s.key == k {
      assert PartOf(k, (c, k.upload).1);
    }
  }

  /** A part is late for a worker exactly if the run writes it after the worker began to list the
      parts of its upload. */
  lemma LateMeansWrittenAfterListing(rows: Rows, store: Store, run: seq<Step>, c: nat, k: Key)
    requires IsRun(Initially(rows, store), run) && k.PartKey?
    ensures (c, k) in Run(Initially(rows, store), run).late <==>
              exists i, j :: 0 <= i < j < |run| && run[i] == ListParts(c, k.upload) && run[j].Write? && run[j].key == k
  {
    LateFrom(Initially(rows, store), run, c, k);
  }

  /** Workers take away nothing but what their inventory names, and objects only if their bytes are
      the recorded ones. */
  lemma OnlyNamedKeysAreDeleted(w: World, s: Step, k: Key)
    requires Inv(w) && Enabled(w, s) && k in w.store && k !in Take(w, s).store
    ensures (s.Erase? && s.key == k) || ((s.DropPart? || s.DropObject?) && Named(w.workers[s.worker].inventory.rows, k))
    ensures s.DropObject? ==>
            var m := w.workers[s.worker].inventory.rows.objects[k]; Matches(w.store, k, m.size, m.digest)
  {
    if s.DropPart? {
      assert WorkerInv(w, s.worker, w.workers[s.worker]);
    }
  }

  /** The rows go in one step only: when a worker that has done everything finalizes under a live lease
      and finds exactly the rows it loaded, which are not too many to load. */
  lemma RowsGoExactly(w: World, s: Step)
    requires Inv(w) && Enabled(w, s) && w.rows.Some?
    ensures Take(w, s).rows.None? <==>
              && s.Finalize? && s.leaseLive && w.rows.value == w.workers[s.worker].inventory.rows
              && |w.rows.value.objects| <= 10_000 && |w.rows.value.uploads| <= 10_000
  {}

  /** Objects go after parts: a worker deletes an object, or finalizes, only when no part of the uploads it
      loaded is left but those written since it began to list them. */
  lemma ObjectsGoAfterParts(w: World, s: Step, u: string)
    requires Inv(w) && Enabled(w, s) && (s.DropObject? || s.Finalize?)
             && u in w.workers[s.worker].inventory.rows.uploads
    ensures PartsGone(w, s.worker, u)
  {
    assert WorkerInv(w, s.worker, w.workers[s.worker]);
  }
}
