/** Permanent deletion of an asset, internal/assetpurge: bytes first, metadata last, by workers that
    may fail or crash between any two steps and start over. */
module AssetPurge {
  import opened Common
  import opened ObjectStore

  /** What asset_objects records about a key. */
  datatype Meta = Meta(size: int, digest: Digest)

  /** The rows that refer to the asset: its objects by storage key, which the table keeps unique,
      and its uploads. */
  datatype Rows = Rows(objects: map<Key, Meta>, uploads: set<string>)

  /** inventoryFingerprint hashes a sorted listing of the rows, so it determines them. */
  datatype Fingerprint = Fingerprint(of: Rows)

  datatype Inventory = Inventory(rows: Rows, fingerprint: Fingerprint)

  const MAX_OBJECTS := 10_000
  const MAX_UPLOADS := 10_000

  /** Load, once the lease has been checked. */
  function Load(rows: Rows): Option<Inventory> {
    if |rows.objects| > MAX_OBJECTS || |rows.uploads| > MAX_UPLOADS then None
        else Some(Inventory(rows, Fingerprint(rows)))
  }

  // ---------------------------------------------------------------------------
  // The store operations of a purge
  // ---------------------------------------------------------------------------

  type Store = map<Key, Bytes>

  predicate OfUploads(k: Key, uploads: set<string>) { k.PartKey? && k.upload in uploads }

  /** DeleteParts for each of the uploads. */
  function WithoutParts(store: Store, uploads: set<string>): Store {
    map k | k in store && !OfUploads(k, uploads) :: store[k]
  }

  /** DeleteObject: fine if absent, refused if the bytes are not the recorded ones. */
  predicate Deletable(store: Store, key: Key, m: Meta) { key !in store || Matches(store, key, m.size, m.digest) }

  /** The keys a purge of the rows removes. */
  predicate Named(rows: Rows, k: Key) { OfUploads(k, rows.uploads) || k in rows.objects }

  function Wiped(store: Store, rows: Rows): Store {
    map k | k in store && !Named(rows, k) :: store[k]
  }

  /** store is what is left of before after some of the named keys are gone. */
  ghost predicate PartlyWiped(before: Store, store: Store, rows: Rows) {
    && (forall k :: k in store ==> k in before && store[k] == before[k])
    && (forall k :: k in before && !Named(rows, k) ==> k in store)
  }

  predicate Possible(store: Store, rows: Rows) {
    forall k :: k in rows.objects && !OfUploads(k, rows.uploads) ==> Deletable(store, k, rows.objects[k])
  }

  /** Whatever has been deleted so far, deleting all of it leads to the same end, and is still
      possible if it was. */
  lemma PartialDeletionIsHarmless(before: Store, store: Store, rows: Rows)
    requires PartlyWiped(before, store, rows)
    ensures Wiped(store, rows) == Wiped(before, rows)
    ensures Possible(before, rows) ==> Possible(store, rows)
  {}

  // ---------------------------------------------------------------------------
  // One run
  // ---------------------------------------------------------------------------

  /** The metadata and the bytes of one asset. rows is None once the asset is gone. */
  class Purger {
    var rows: Option<Rows>
    var store: Store

    constructor (rows: Rows, store: Store)
      ensures this.rows == Some(rows) && this.store == store
    {
      this.rows := Some(rows);
      this.store := store;
    }

    /** The body of RunOnce after the claim, stopped by a crash after `steps` store operations, and
        with the lease found live or not at the end. Either everything is gone, bytes and rows, or
        the rows are as they were and nothing but named keys has been touched. */
    method RunOnce(steps: nat, leaseLive: bool) returns (done: bool)
      modifies this
      ensures done <==>
              old(rows).Some? && Load(old(rows).value).Some? && leaseLive
              && Possible(old(store), old(rows).value)
                        && |old(rows).value.uploads| + |old(rows).value.objects| <= steps
      ensures done ==> rows == None && store == Wiped(old(store), old(rows).value)
      ensures !done ==>
              rows == old(rows)
              && (if rows.Some? then PartlyWiped(old(store), store, rows.value) else store == old(store))
    {
      if rows.None? || Load(rows.value).None? {
        return false;
      }
      var inventory := Load(rows.value).value;
      var left: nat;
      done, left := DeleteUploads(inventory, steps);
      if !done {
        return false;
      }
      done, left := DeleteObjects(inventory, left);
      if !done || !leaseLive || Fingerprint(rows.value) != inventory.fingerprint {
        return false;
      }
      rows := None;
    }

    method DeleteUploads(inventory: Inventory, steps: nat) returns (done: bool, left: nat)
      modifies this`store
      ensures done <==> |inventory.rows.uploads| <= steps
      ensures done ==>
              store == WithoutParts(old(store), inventory.rows.uploads)
              && left == steps - |inventory.rows.uploads|
      ensures forall k :: k in store ==> k in old(store) && store[k] == old(store)[k]
      ensures forall k :: k in old(store) && !OfUploads(k, inventory.rows.uploads) ==> k in store
    {
      var uploads := inventory.rows.uploads;
      left := steps;
      while uploads != {}
        invariant uploads <= inventory.rows.uploads && left + |inventory.rows.uploads| == steps + |uploads|
        invariant store == WithoutParts(old(store), inventory.rows.uploads - uploads)
      {
        if left == 0 {
          return false, 0;
        }
        var upload :| upload in uploads;
        store := WithoutParts(store, {upload});
        left, uploads := left - 1, uploads - {upload};
      }
      assert inventory.rows.uploads - {} == inventory.rows.uploads;
      return true, left;
    }

    method DeleteObjects(inventory: Inventory, steps: nat) returns (done: bool, left: nat)
      modifies this`store
      ensures done <==> |inventory.rows.objects| <= steps && forall k :: k in inventory.rows.objects ==>
              Deletable(old(store), k, inventory.rows.objects[k])
      ensures done ==> store == old(store) - inventory.rows.objects.Keys
      ensures forall k :: k in store ==> k in old(store) && store[k] == old(store)[k]
      ensures forall k :: k in old(store) && k !in inventory.rows.objects ==> k in store
    {
      var objects := inventory.rows.objects;
      var keys := objects.Keys;
      left := steps;
      while keys != {}
        invariant keys <= objects.Keys && left + |objects.Keys| == steps + |keys|
        invariant store == old(store) - (objects.Keys - keys)
        invariant forall k :: k in objects && k !in keys ==> Deletable(old(store), k, objects[k])
      {
        if left == 0 {
          return false, 0;
        }
        var k :| k in keys;
        if k in store && !Matches(store, k, objects[k].size, objects[k].digest) {
          return false, left;
        }
        store := store - {k};
        left, keys := left - 1, keys - {k};
      }
      assert objects.Keys - {} == objects.Keys;
      return true, left;
    }
  }
}
