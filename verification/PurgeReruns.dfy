/** What a purge worker reaches when nobody disturbs it, and why it does not matter where the workers
    before it stopped; and a run in which a part written too late outlives its asset. */
module PurgeReruns {
  import opened Common
  import opened ObjectStore
  import opened AssetPurge
  import opened PurgeRuns

  /** One step leads from w to v. */
  predicate Leads(w: PurgeRuns.World, s: Step, v: PurgeRuns.World) { Enabled(w, s) && Take(w, s) == v }

  /** v is reached from w by the run. */
  predicate Reaches(w: PurgeRuns.World, run: seq<Step>, v: PurgeRuns.World) {
    PurgeRuns.IsRun(w, run) && PurgeRuns.Run(w, run) == v
  }

  lemma ReachesByOne(w: PurgeRuns.World, s: Step)
    requires Enabled(w, s)
    ensures Reaches(w, [s], Take(w, s))
  {
    assert PurgeRuns.IsRun(Take(w, s), []) && PurgeRuns.Run(Take(w, s), []) == Take(w, s);
    assert [s][1..] == [];
  }

  lemma FirstStep(w: PurgeRuns.World, run: seq<Step>, v: PurgeRuns.World) returns (m: PurgeRuns.World)
    requires Reaches(w, run, v) && run != []
    ensures Leads(w, run[0], m) && Reaches(m, run[1..], v)
  {
    m := Take(w, run[0]);
  }

  lemma StepFirst(w: PurgeRuns.World, s: Step, m: PurgeRuns.World, rest: seq<Step>, v: PurgeRuns.World)
    requires Leads(w, s, m) && Reaches(m, rest, v)
    ensures Reaches(w, [s] + rest, v)
  {
    assert ([s] + rest)[1..] == rest;
  }

  lemma {:induction false} ReachesThen(w: PurgeRuns.World, a: seq<Step>, v: PurgeRuns.World, b: seq<Step>,
                                       u: PurgeRuns.World)
    requires Reaches(w, a, v) && Reaches(v, b, u)
    ensures Reaches(w, a + b, u)
    decreases |a|
  {
    if a == [] {
      assert a + b == b;
    } else {
      var m := FirstStep(w, a, v);
      ReachesThen(m, a[1..], v, b, u);
      StepFirst(w, a[0], m, a[1..] + b, u);
      assert [a[0]] + (a[1..] + b) == a + b;
    }
  }

  // ---------------------------------------------------------------------------
  // One upload
  // ---------------------------------------------------------------------------

  /** The worker as it works through the parts, the uploads and the objects. */
  predicate Stage(w: PurgeRuns.World, c: nat, i: Inventory, uploads: set<string>, listing: Option<Listing>,
                  keys: set<Key>) {
    c in w.workers && w.workers[c] == Working(i, uploads, listing, keys)
  }

  /** Nothing has changed but the worker, the store and the history of deletions. */
  predicate OnlyDeleted(w: PurgeRuns.World, v: PurgeRuns.World, c: nat) {
    v.rows == w.rows && v.finished == w.finished && v.workers.Keys == w.workers.Keys + {c}
  }

  lemma {:induction false} PageIsDropped(w: PurgeRuns.World, c: nat, i: Inventory, uploads: set<string>, l: Listing,
                                         keys: set<Key>)
    returns (run: seq<Step>, v: PurgeRuns.World)
    requires Stage(w, c, i, uploads, Some(l), keys)
    ensures Reaches(w, run, v) && OnlyDeleted(w, v, c) && v.store == w.store - l.page
    ensures Stage(v, c, i, uploads, Some(l.(page := {})), keys)
    decreases |l.page|
  {
    if l.page == {} {
      run, v := [], w;
      assert w.store - l.page == w.store;
    } else {
      var k :| k in l.page;
      var w1 := Take(w, DropPart(c, k));
      ReachesByOne(w, DropPart(c, k));
      var rest;
      rest, v := PageIsDropped(w1, c, i, uploads, l.(page := l.page - {k}), keys);
      run := [DropPart(c, k)] + rest;
      ReachesThen(w, [DropPart(c, k)], w1, rest, v);
      assert w.store - {k} - (l.page - {k}) == w.store - l.page;
    }
  }

  /** Listing, one page with all parts, deleting them, done. */
  lemma UploadIsDropped(w: PurgeRuns.World, c: nat, i: Inventory, uploads: set<string>, keys: set<Key>, u: string)
    returns (run: seq<Step>, v: PurgeRuns.World)
    requires Stage(w, c, i, uploads, None, keys) && u in uploads
    ensures Reaches(w, run, v) && OnlyDeleted(w, v, c) && v.store == WithoutParts(w.store, {u})
    ensures Stage(v, c, i, uploads - {u}, None, keys)
  {
    var all := PartsOf(w.store, u);
    var w1 := Take(w, ListParts(c, u));
    var w2 := Take(w1, NextPage(c, all));
    ReachesByOne(w, ListParts(c, u));
    ReachesByOne(w1, NextPage(c, all));
    ReachesThen(w, [ListParts(c, u)], w1, [NextPage(c, all)], w2);
    assert all - all == {};
    var drops, w3 := PageIsDropped(w2, c, i, uploads, Listing(u, {}, all), keys);
    ReachesThen(w, [ListParts(c, u)] + [NextPage(c, all)], w2, drops, w3);
    v := Take(w3, EndList(c));
    ReachesByOne(w3, EndList(c));
    run := [ListParts(c, u)] + [NextPage(c, all)] + drops + [EndList(c)];
    ReachesThen(w, [ListParts(c, u)] + [NextPage(c, all)] + drops, w3, [EndList(c)], v);
    assert w.store - all == WithoutParts(w.store, {u});
  }

  lemma {:induction false} UploadsAreDropped(w: PurgeRuns.World, c: nat, i: Inventory, uploads: set<string>,
                                             keys: set<Key>)
    returns (run: seq<Step>, v: PurgeRuns.World)
    requires Stage(w, c, i, uploads, None, keys)
    ensures Reaches(w, run, v) && OnlyDeleted(w, v, c) && v.store == WithoutParts(w.store, uploads)
    ensures Stage(v, c, i, {}, None, keys)
    decreases |uploads|
  {
    if uploads == {} {
      run, v := [], w;
      assert WithoutParts(w.store, {}) == w.store;
    } else {
      var u :| u in uploads;
      var first, w1 := UploadIsDropped(w, c, i, uploads, keys, u);
      var rest;
      rest, v := UploadsAreDropped(w1, c, i, uploads - {u}, keys);
      run := first + rest;
      ReachesThen(w, first, w1, rest, v);
      assert WithoutParts(WithoutParts(w.store, {u}), uploads - {u}) == WithoutParts(w.store, uploads);
    }
  }

  lemma {:induction false} ObjectsAreDropped(w: PurgeRuns.World, c: nat, i: Inventory, keys: set<Key>)
    returns (run: seq<Step>, v: PurgeRuns.World)
    requires Stage(w, c, i, {}, None, keys) && keys <= i.rows.objects.Keys
    requires forall k :: k in keys ==> Deletable(w.store, k, i.rows.objects[k])
    ensures Reaches(w, run, v) && OnlyDeleted(w, v, c) && v.store == w.store - keys
    ensures Stage(v, c, i, {}, None, {})
    decreases |keys|
  {
    if keys == {} {
      run, v := [], w;
      assert w.store - keys == w.store;
    } else {
      var k :| k in keys;
      var w1 := Take(w, DropObject(c, k));
      ReachesByOne(w, DropObject(c, k));
      var rest;
      rest, v := ObjectsAreDropped(w1, c, i, keys - {k});
      run := [DropObject(c, k)] + rest;
      ReachesThen(w, [DropObject(c, k)], w1, rest, v);
      assert w.store - {k} - (keys - {k}) == w.store - keys;
    }
  }

  // ---------------------------------------------------------------------------
  // A rerun
  // ---------------------------------------------------------------------------

  /** From any state with rows whose objects are absent or as recorded, a worker that nobody disturbs
      and whose lease is live leaves no rows and exactly what the rows did not name. */
  lemma UndisturbedWorkerFinishes(w: PurgeRuns.World, c: nat) returns (run: seq<Step>, v: PurgeRuns.World)
    requires w.rows.Some? && Load(w.rows.value).Some? && c !in w.workers && Possible(w.store, w.rows.value)
    ensures Reaches(w, run, v) && v.rows.None? && v.store == Wiped(w.store, w.rows.value)
  {
    var rows, i := w.rows.value, Load(w.rows.value).value;
    var w1 := Take(w, Begin(c));
    ReachesByOne(w, Begin(c));
    var parts, w2 := UploadsAreDropped(w1, c, i, rows.uploads, rows.objects.Keys);
    ReachesThen(w, [Begin(c)], w1, parts, w2);
    forall k | k in rows.objects
      ensures Deletable(w2.store, k, rows.objects[k])
    {
      assert OfUploads(k, rows.uploads) || Deletable(w.store, k, rows.objects[k]);
    }
    var objects, w3 := ObjectsAreDropped(w2, c, i, rows.objects.Keys);
    ReachesThen(w, [Begin(c)] + parts, w2, objects, w3);
    v := Take(w3, Finalize(c, true));
    ReachesByOne(w3, Finalize(c, true));
    run := [Begin(c)] + parts + objects + [Finalize(c, true)];
    ReachesThen(w, [Begin(c)] + parts + objects, w3, [Finalize(c, true)], v);
    assert WithoutParts(w.store, rows.uploads) - rows.objects.Keys == Wiped(w.store, rows);
  }

  /** A step of a purge worker, as opposed to the rest of the system. */
  predicate WorkerStep(s: Step) { !s.ChangeRows? && !s.Write? && !s.Erase? }

  /** The rows are as they were or gone, everyone's inventory is theirs, and nothing was written. */
  ghost predicate Undisturbed(rows: Rows, w: PurgeRuns.World) {
    && (w.rows == Some(rows) || w.rows.None?) && w.late == {}
    && (w.finished.Some? ==> w.finished.value.inventory.rows == rows)
    && forall c :: c in w.workers && w.workers[c].Working? ==> w.workers[c].inventory.rows == rows
  }

  ghost predicate Progress(rows: Rows, store: Store, w: PurgeRuns.World) {
    PurgeRuns.Inv(w) && Undisturbed(rows, w) && PartlyWiped(store, w.store, rows)
  }

  /** A worker keeps the inventory it loaded. */
  lemma InventoryStays(w: PurgeRuns.World, s: Step, c: nat)
    requires Enabled(w, s) && c in w.workers && Take(w, s).workers[c].Working?
    ensures w.workers[c].Working? && Take(w, s).workers[c].inventory == w.workers[c].inventory
  {}

  lemma WorkerStepKeepsInventories(rows: Rows, w: PurgeRuns.World, s: Step, c: nat)
    requires Undisturbed(rows, w) && Enabled(w, s) && WorkerStep(s)
    requires c in Take(w, s).workers && Take(w, s).workers[c].Working?
    ensures Take(w, s).workers[c].inventory.rows == rows
  {
    if c in w.workers {
      InventoryStays(w, s, c);
    } else {
      assert s == Begin(c);
    }
  }

  lemma WorkerStepKeepsRows(rows: Rows, w: PurgeRuns.World, s: Step)
    requires Undisturbed(rows, w) && Enabled(w, s) && WorkerStep(s)
    ensures var v := Take(w, s);
            && (v.rows == Some(rows) || v.rows.None?) && v.late == {}
            && (v.finished.Some? ==> v.finished.value.inventory.rows == rows)
  {}

  lemma WorkerStepIsUndisturbed(rows: Rows, w: PurgeRuns.World, s: Step)
    requires Undisturbed(rows, w) && Enabled(w, s) && WorkerStep(s)
    ensures Undisturbed(rows, Take(w, s))
  {
    WorkerStepKeepsRows(rows, w, s);
    forall c | c in Take(w, s).workers && Take(w, s).workers[c].Working?
      ensures Take(w, s).workers[c].inventory.rows == rows
    {
      WorkerStepKeepsInventories(rows, w, s, c);
    }
  }

  lemma WorkerStepOnlyDeletes(w: PurgeRuns.World, s: Step)
    requires Enabled(w, s) && WorkerStep(s)
    ensures forall k :: k in Take(w, s).store ==> k in w.store && Take(w, s).store[k] == w.store[k]
  {}

  lemma WorkerStepWipes(rows: Rows, store: Store, w: PurgeRuns.World, s: Step)
    requires Progress(rows, store, w) && Enabled(w, s) && WorkerStep(s)
    ensures PartlyWiped(store, Take(w, s).store, rows)
  {
    WorkerStepOnlyDeletes(w, s);
    var v := Take(w, s);
    forall k | k in store && !Named(rows, k)
      ensures k in v.store
    {
      if k !in v.store {
        OnlyNamedKeysAreDeleted(w, s, k);
      }
    }
  }

  lemma WorkerStepProgresses(rows: Rows, store: Store, w: PurgeRuns.World, s: Step)
    requires Progress(rows, store, w) && Enabled(w, s) && WorkerStep(s)
    ensures Progress(rows, store, Take(w, s))
  {
    TakeKeepsInv(w, s);
    WorkerStepIsUndisturbed(rows, w, s);
    WorkerStepWipes(rows, store, w, s);
  }

  lemma {:induction false} WorkersProgress(rows: Rows, store: Store, w: PurgeRuns.World, run: seq<Step>)
    requires Progress(rows, store, w) && PurgeRuns.IsRun(w, run) && forall s :: s in run ==> WorkerStep(s)
    ensures Progress(rows, store, PurgeRuns.Run(w, run))
    decreases |run|
  {
    if run != [] {
      WorkerStepProgresses(rows, store, w, run[0]);
      WorkersProgress(rows, store, Take(w, run[0]), run[1..]);
    }
  }

  /** However the workers interleave, stop and start over, in whatever order and pages they delete:
      if the rows are gone in the end, the store is what it was without the keys they named. */
  lemma EveryFinishIsTheSame(rows: Rows, store: Store, run: seq<Step>)
    requires PurgeRuns.IsRun(Initially(rows, store), run) && forall s :: s in run ==> WorkerStep(s)
    requires PurgeRuns.Run(Initially(rows, store), run).rows.None?
    ensures PurgeRuns.Run(Initially(rows, store), run).store == Wiped(store, rows)
  {
    var w := PurgeRuns.Run(Initially(rows, store), run);
    WorkersProgress(rows, store, Initially(rows, store), run);
    PurgedBytesStayGone(rows, store, run);
    assert forall k :: k in w.store ==> !Named(rows, k);
  }

  /** And from wherever any number of workers stopped, a later worker can still get there. */
  lemma RerunReachesTheSameEnd(rows: Rows, store: Store, crashed: seq<Step>, c: nat)
    returns (rerun: seq<Step>, v: PurgeRuns.World)
    requires PurgeRuns.IsRun(Initially(rows, store), crashed) && forall s :: s in crashed ==> WorkerStep(s)
    requires var w := PurgeRuns.Run(Initially(rows, store), crashed); w.rows.Some? && c !in w.workers
    requires Load(rows).Some? && Possible(store, rows)
    ensures Reaches(PurgeRuns.Run(Initially(rows, store), crashed), rerun, v)
    ensures v.rows.None? && v.store == Wiped(store, rows)
  {
    var w := PurgeRuns.Run(Initially(rows, store), crashed);
    WorkersProgress(rows, store, Initially(rows, store), crashed);
    PartialDeletionIsHarmless(store, w.store, rows);
    rerun, v := UndisturbedWorkerFinishes(w, c);
  }

  // ---------------------------------------------------------------------------
  // A part written too late
  // ---------------------------------------------------------------------------

  const FIRST: Key := PartKey("u", 1)
  const SECOND: Key := PartKey("u", 2)
  const ROWS: Rows := Rows(map[], {"u"})
  const INVENTORY: Inventory := Inventory(ROWS, Fingerprint(ROWS))

  /** The second part is written after the only page, which held the first. */
  const LATE: seq<Step> := [
    Begin(0), ListParts(0, "u"), NextPage(0, {FIRST}), DropPart(0, FIRST), Write(SECOND, [7]), EndList(0),
    Finalize(0, true)]

  function During(store: Store, uploads: set<string>, listing: Option<Listing>, begun: set<(nat, string)>,
                  late: set<(nat, Key)>): PurgeRuns.World {
    PurgeRuns.World.World(Some(ROWS), store, map[0 := Working(INVENTORY, uploads, listing, {})], {}, begun, late, None)
  }

  const BEGUN := During(map[FIRST := [6]], {"u"}, None, {}, {})
  const LISTED := During(map[FIRST := [6]], {"u"}, Some(Listing("u", {FIRST}, {})), {(0, "u")}, {})
  const PAGED := During(map[FIRST := [6]], {"u"}, Some(Listing("u", {}, {FIRST})), {(0, "u")}, {})
  const DROPPED := During(map[], {"u"}, Some(Listing("u", {}, {})), {(0, "u")}, {})
  const WRITTEN := During(map[SECOND := [7]], {"u"}, Some(Listing("u", {}, {})), {(0, "u")}, {(0, SECOND)})
  const ENDED := During(map[SECOND := [7]], {}, None, {(0, "u")}, {(0, SECOND)})
  const PURGED := ENDED.(workers := map[0 := Ended], rows := None, finished := Some(Finished(0, INVENTORY)))

  lemma WorkBegins()
    ensures Leads(Initially(ROWS, map[FIRST := [6]]), LATE[0], BEGUN) && Leads(BEGUN, LATE[1], LISTED)
  {
    assert Load(ROWS) == Some(INVENTORY) && ROWS.objects.Keys == {};
    assert PartsOf(BEGUN.store, "u") == {FIRST};
  }

  lemma PageIsDeleted()
    ensures Leads(LISTED, LATE[2], PAGED) && Leads(PAGED, LATE[3], DROPPED)
  {
    assert {FIRST} - {FIRST} == {};
    assert PAGED.store - {FIRST} == map[];
  }

  lemma PartIsWritten()
    ensures Leads(DROPPED, LATE[4], WRITTEN)
  {
    assert PartOf(SECOND, (0, "u").1);
    assert Watching({(0, "u")}, SECOND) == {(0, SECOND)};
  }

  lemma ListingEnds()
    ensures Leads(WRITTEN, LATE[5], ENDED)
  {
    assert {"u"} - {"u"} == {};
  }

  lemma RowsAreDeleted()
    ensures Leads(ENDED, LATE[6], PURGED)
  {
    assert Load(ROWS) == Some(INVENTORY);
  }

  /** A run through the given worlds. */
  predicate Path(worlds: seq<PurgeRuns.World>, run: seq<Step>) {
    |worlds| == |run| + 1 && forall i :: 0 <= i < |run| ==> Leads(worlds[i], run[i], worlds[i + 1])
  }

  lemma {:induction false} PathIsRun(worlds: seq<PurgeRuns.World>, run: seq<Step>)
    requires Path(worlds, run)
    ensures Reaches(worlds[0], run, worlds[|run|])
    decreases |run|
  {
    if run != [] {
      PathIsRun(worlds[1..], run[1..]);
      StepFirst(worlds[0], run[0], worlds[1], run[1..], worlds[|run|]);
      assert [run[0]] + run[1..] == run;
    }
  }

  /** A part written after the only page of its upload's listing is still there when the rows are
      gone. */
  lemma LatePartSurvives()
    ensures Reaches(Initially(ROWS, map[FIRST := [6]]), LATE, PURGED)
    ensures PURGED.rows.None? && SECOND in PURGED.store && Named(ROWS, SECOND)
  {
    WorkBegins();
    PageIsDeleted();
    PartIsWritten();
    ListingEnds();
    RowsAreDeleted();
    PathIsRun([Initially(ROWS, map[FIRST := [6]]), BEGUN, LISTED, PAGED, DROPPED, WRITTEN, ENDED, PURGED], LATE);
  }
}
