/** An assembly that nobody disturbs: when it succeeds, with which error it fails otherwise, and what
    is in the store afterwards. */
module Assemblies {
  import opened Common
  import opened ObjectStore

  /** Call c advances n times and nothing else happens. */
  function Alone(w: World, c: nat, n: nat): World
    requires Inv(w) && c in w.calls
    decreases n
  {
    if n == 0 then w
    else
      NextKeepsInv(w, c, Advance);
      Alone(Next(w, c, Advance), c, n - 1)
  }

  lemma {:induction false} AloneAdds(w: World, c: nat, m: nat, n: nat)
    requires Inv(w) && c in w.calls
    ensures var v := Alone(w, c, m); Inv(v) && c in v.calls && Alone(w, c, m + n) == Alone(v, c, n)
    decreases m
  {
    if m > 0 {
      NextKeepsInv(w, c, Advance);
      AloneAdds(Next(w, c, Advance), c, m - 1, n);
    }
  }

  lemma {:induction false} DoneStays(w: World, c: nat, n: nat)
    requires Inv(w) && c in w.calls && w.calls[c].Done?
    ensures Alone(w, c, n) == w
    decreases n
  {
    if n > 0 {
      DoneStays(w, c, n - 1);
    }
  }

  /** The part's key holds what the reference records. */
  predicate AsRecorded(store: map<Key, Bytes>, p: PartRef) { Matches(store, p.key, p.size, p.sha256) }

  /** What is wrong with a part of which `before` bytes have been read ahead. */
  function Fault(store: map<Key, Bytes>, p: PartRef, o: Options, before: int): StoreError {
    if p.key !in store then Missing
    else if |store[p.key]| > o.maxBytes - before then TooLarge
    else if |store[p.key]| != p.size then SizeMismatch
    else ChecksumMismatch
  }

  /** The first n parts are as recorded; part n, if there is one, is not. */
  ghost predicate GoodUpTo(store: map<Key, Bytes>, parts: seq<PartRef>, n: nat) {
    && n <= |parts| && (forall i :: 0 <= i < n ==> AsRecorded(store, parts[i]))
    && (n < |parts| ==> !AsRecorded(store, parts[n]))
  }

  lemma {:induction false} RecordedLength(store: map<Key, Bytes>, parts: seq<PartRef>)
    requires forall i :: 0 <= i < |parts| ==> AsRecorded(store, parts[i])
    ensures |Concatenation(parts)| == SizeSum(parts)
    decreases |parts|
  {
    if parts != [] {
      var n := |parts| - 1;
      RecordedLength(store, parts[..n]);
      assert AsRecorded(store, parts[n]);
    }
  }

  /** Reading on after the first n parts. */
  function ReadingAt(key: Key, parts: seq<PartRef>, o: Options, n: nat): Call
    requires n <= |parts|
  {
    Reading(key, parts, o, n, Concatenation(parts[..n]))
  }

  ghost predicate At(w: World, c: nat, k: Call) { Inv(w) && c in w.calls && w.calls[c] == k }

  /** A part that is as recorded is read. */
  lemma GoodPartIsRead(w: World, c: nat, upload: string, key: Key, parts: seq<PartRef>, o: Options, n: nat)
    requires n < |parts| && At(w, c, ReadingAt(key, parts, o, n)) && ValidAssembly(upload, parts, o)
    requires forall i :: 0 <= i <= n ==> AsRecorded(w.store, parts[i])
    ensures Next(w, c, Advance) == w.(calls := w.calls[c := ReadingAt(key, parts, o, n + 1)])
  {
    var front, part := parts[..n], parts[n];
    assert AsRecorded(w.store, part);
    RecordedLength(w.store, front);
    PrefixSumsFit(upload, parts, o, n + 1);
    assert parts[..n + 1] == front + [part];
    assert parts[..n + 1][..n] == front;
    assert Concatenation(parts[..n + 1]) == Concatenation(front) + part.sha256.of;
    assert w.store[part.key] == part.sha256.of;
  }

  /** One that is not ends the call with its fault. */
  lemma BadPartEnds(w: World, c: nat, upload: string, key: Key, parts: seq<PartRef>, o: Options, n: nat)
    requires n < |parts| && At(w, c, ReadingAt(key, parts, o, n)) && ValidAssembly(upload, parts, o)
    requires (forall i :: 0 <= i < n ==> AsRecorded(w.store, parts[i])) && !AsRecorded(w.store, parts[n])
    ensures Next(w, c, Advance)
            == w.(calls := w.calls[c := Done(key, Failed(Fault(w.store, parts[n], o, SizeSum(parts[..n]))))])
  {
    RecordedLength(w.store, parts[..n]);
  }

  /** Reading goes through the good parts. */
  lemma {:induction false} GoodPartsAreRead(w: World, c: nat, upload: string, key: Key, parts: seq<PartRef>, o: Options,
                                            from: nat, n: nat)
    requires from <= n <= |parts| && At(w, c, ReadingAt(key, parts, o, from)) && ValidAssembly(upload, parts, o)
    requires forall i :: 0 <= i < n ==> AsRecorded(w.store, parts[i])
    ensures Alone(w, c, n - from) == w.(calls := w.calls[c := ReadingAt(key, parts, o, n)])
    decreases n - from
  {
    if from < n {
      NextKeepsInv(w, c, Advance);
      GoodPartIsRead(w, c, upload, key, parts, o, from);
      var v := Next(w, c, Advance);
      GoodPartsAreRead(v, c, upload, key, parts, o, from + 1, n);
      assert v.calls[c := ReadingAt(key, parts, o, n)] == w.calls[c := ReadingAt(key, parts, o, n)];
    } else {
      assert w.calls[c := w.calls[c]] == w.calls;
    }
  }

  /** How an assembly ends that finds its target free and of which the first n parts are good. */
  function EndOf(w: World, key: Key, parts: seq<PartRef>, o: Options, n: nat): Outcome
    requires n <= |parts|
  {
    if n < |parts| then Failed(Fault(w.store, parts[n], o, SizeSum(parts[..n])))
    else if Sha256(Concatenation(parts)) != o.expectedDigest then Failed(ChecksumMismatch)
    else Stored(o.expectedSize, o.expectedDigest, false)
  }

  /** After the last part the digest decides. */
  lemma WholeIsChecked(w: World, upload: string, key: Key, parts: seq<PartRef>, o: Options)
    requires ValidAssembly(upload, parts, o) && forall i :: 0 <= i < |parts| ==> AsRecorded(w.store, parts[i])
    ensures |Concatenation(parts)| == o.expectedSize
    ensures ReadStep(w, ReadingAt(key, parts, o, |parts|))
            == if Sha256(Concatenation(parts)) == o.expectedDigest then Publishing(key, Concatenation(parts), 0, parts)
               else Done(key, Failed(ChecksumMismatch))
  {
    assert parts[..|parts|] == parts;
    RecordedLength(w.store, parts);
  }

  lemma AloneOne(w: World, c: nat)
    requires Inv(w) && c in w.calls
    ensures Alone(w, c, 1) == Next(w, c, Advance)
  {
    NextKeepsInv(w, c, Advance);
    assert Alone(Next(w, c, Advance), c, 0) == Next(w, c, Advance);
  }

  lemma ReadIsNext(w: World, c: nat, k: Call, next: Call)
    requires At(w, c, k) && k.Reading? && CallOk(k) && ReadStep(w, k) == next
    ensures Next(w, c, Advance) == w.(calls := w.calls[c := next])
  {}

  /** A free target takes the bytes. */
  lemma FreeTargetTakes(w: World, c: nat, key: Key, bytes: Bytes, parts: seq<PartRef>)
    requires At(w, c, Publishing(key, bytes, 0, parts)) && key !in w.store
    ensures Next(w, c, Advance) == w.(calls := w.calls[c := Done(key, Stored(|bytes|, Sha256(bytes), false))],
                                      store := w.store[key := bytes])
  {}

  /** The world in which a call has ended so, with these bytes at its key if it stored any. */
  ghost predicate EndsAs(w: World, end: World, c: nat, key: Key, outcome: Outcome, bytes: Bytes) {
    && c in end.calls && end.calls[c] == Done(key, outcome)
    && end.store == if outcome.Stored? then w.store[key := bytes] else w.store
  }

  lemma PublishEnds(w: World, c: nat, key: Key, bytes: Bytes, parts: seq<PartRef>)
    requires At(w, c, Publishing(key, bytes, 0, parts)) && key !in w.store
    ensures EndsAs(w, Alone(w, c, 1), c, key, Stored(|bytes|, Sha256(bytes), false), bytes)
  {
    FreeTargetTakes(w, c, key, bytes, parts);
    AloneOne(w, c);
  }

  lemma WholeIsPublished(w: World, c: nat, upload: string, key: Key, parts: seq<PartRef>, o: Options)
    requires At(w, c, ReadingAt(key, parts, o, |parts|)) && ValidAssembly(upload, parts, o) && key !in w.store
    requires forall i :: 0 <= i < |parts| ==> AsRecorded(w.store, parts[i])
    ensures EndsAs(w, Alone(w, c, 2), c, key, EndOf(w, key, parts, o, |parts|), Concatenation(parts))
  {
    WholeIsChecked(w, upload, key, parts, o);
    var next := ReadStep(w, ReadingAt(key, parts, o, |parts|));
    ReadIsNext(w, c, ReadingAt(key, parts, o, |parts|), next);
    NextKeepsInv(w, c, Advance);
    AloneOne(w, c);
    AloneAdds(w, c, 1, 1);
    var v := w.(calls := w.calls[c := next]);
    if next.Done? {
      DoneStays(v, c, 1);
    } else {
      PublishEnds(v, c, key, Concatenation(parts), parts);
    }
  }

  lemma ReadingEnds(w: World, c: nat, upload: string, key: Key, parts: seq<PartRef>, o: Options, n: nat)
    requires At(w, c, ReadingAt(key, parts, o, 0)) && ValidAssembly(upload, parts, o) && key !in w.store
    requires GoodUpTo(w.store, parts, n)
    ensures EndsAs(w, Alone(w, c, |parts| + 2), c, key, EndOf(w, key, parts, o, n), Concatenation(parts))
  {
    GoodPartsAreRead(w, c, upload, key, parts, o, 0, n);
    var v := w.(calls := w.calls[c := ReadingAt(key, parts, o, n)]);
    AloneAdds(w, c, n, |parts| + 2 - n);
    if n == |parts| {
      WholeIsPublished(v, c, upload, key, parts, o);
    } else {
      BadPartEnds(v, c, upload, key, parts, o, n);
      NextKeepsInv(v, c, Advance);
      DoneStays(Next(v, c, Advance), c, |parts| + 1 - n);
    }
  }

  /** An assembly that finds its target free and that nobody disturbs succeeds if and only if every
      part's key holds the recorded bytes and their concatenation has the expected digest. Then the
      concatenation is stored at the target, and nothing else has changed; otherwise the store is as
      it was, and the error is the fault of the first part that is not as recorded, or that of the
      whole. */
  lemma UndisturbedAssembly(w: World, c: nat, upload: string, key: Key, parts: seq<PartRef>, o: Options)
    returns (n: nat)
    requires At(w, c, Looking(key, parts, o)) && ValidAssembly(upload, parts, o) && key !in w.store
    ensures GoodUpTo(w.store, parts, n)
    ensures var end := Alone(w, c, |parts| + 3);
            var good := n == |parts| && Sha256(Concatenation(parts)) == o.expectedDigest;
            && EndsAs(w, end, c, key, EndOf(w, key, parts, o, n), Concatenation(parts))
            && (end.calls[c].outcome == Stored(o.expectedSize, o.expectedDigest, false) <==> good)
            && end.store == if good then w.store[key := Concatenation(parts)] else w.store
  {
    n := 0;
    while n < |parts| && AsRecorded(w.store, parts[n])
      invariant n <= |parts| && forall i :: 0 <= i < n ==> AsRecorded(w.store, parts[i])
    {
      n := n + 1;
    }
    NextKeepsInv(w, c, Advance);
    var v := Next(w, c, Advance);
    assert parts[..0] == [];
    ReadingEnds(v, c, upload, key, parts, o, n);
    AloneAdds(w, c, 1, |parts| + 2);
  }

  /** An occupied target ends it at the first look: as reused exactly if the size and digest are the
      expected ones, else in conflict; the store stays as it is. */
  lemma OccupiedTarget(w: World, c: nat, key: Key, parts: seq<PartRef>, o: Options)
    requires At(w, c, Looking(key, parts, o)) && key in w.store
    ensures var end := Next(w, c, Advance);
            && end.store == w.store
            && end.calls[c] == Done(key, if |w.store[key]| == o.expectedSize && Sha256(w.store[key]) == o.expectedDigest
                                         then Stored(o.expectedSize, o.expectedDigest, true) else Failed(Conflict))
  {}

  // ---------------------------------------------------------------------------
  // What an assembly asks for, and when a publication tries again
  // ---------------------------------------------------------------------------

  /** The references an assembly may name: numbered upwards from one, each at its own key of the upload,
      with a size and a digest in canonical spelling, of the expected size together. */
  ghost predicate Proper(upload: string, parts: seq<PartRef>, o: Options) {
    && (forall p :: p in parts ==> p.number >= 1 && p.key == PartKey(upload, p.number) && p.size >= 0
                                   && p.spelling == Lowercase)
    && (forall i, j :: 0 <= i < j < |parts| ==> parts[i].number < parts[j].number)
    && SizeSum(parts) == o.expectedSize
  }

  lemma ValidPartIsProper(upload: string, parts: seq<PartRef>, o: Options, i: nat)
    requires ValidParts(upload, parts, o) && i < |parts|
    ensures parts[i].number >= 1 && parts[i].key == PartKey(upload, parts[i].number) && parts[i].size >= 0
            && parts[i].spelling == Lowercase
  {
    assert ValidPart(upload, parts, i);
    ValidPartsIncrease(upload, parts, i + 1);
  }

  lemma ProperPartIsValid(upload: string, parts: seq<PartRef>, o: Options, i: nat)
    requires Proper(upload, parts, o) && i < |parts|
    ensures ValidPart(upload, parts, i)
  {
    assert parts[i] in parts;
  }

  lemma ValidPartsAreProper(upload: string, parts: seq<PartRef>, o: Options)
    ensures ValidParts(upload, parts, o) <==> Proper(upload, parts, o)
  {
    if ValidParts(upload, parts, o) {
      ValidPartsIncrease(upload, parts, |parts|);
      assert parts[..|parts|] == parts;
      forall i | 0 <= i < |parts|
        ensures parts[i].number >= 1 && parts[i].key == PartKey(upload, parts[i].number) && parts[i].size >= 0
                && parts[i].spelling == Lowercase
      {
        ValidPartIsProper(upload, parts, o, i);
      }
    } else if Proper(upload, parts, o) {
      forall i | 0 <= i < |parts|
        ensures ValidPart(upload, parts, i)
      {
        ProperPartIsValid(upload, parts, o, i);
      }
    }
  }

  /** An assembly starts exactly with at least one part, proper references and a limit that holds the
      expected size and can be exceeded by one; otherwise it fails at once and changes nothing. */
  lemma AssemblyStartsExactly(w: World, c: nat, upload: string, asset: string, parts: seq<PartRef>, o: Options)
    requires Ready(w, c, Assemble(upload, asset, parts, o))
    ensures var u := Next(w, c, Assemble(upload, asset, parts, o));
            var good := parts != [] && 0 <= o.expectedSize <= o.maxBytes && 0 < o.maxBytes < MAX_INT64
                        && Proper(upload, parts, o);
            && u.store == w.store && c in u.calls && u.calls == w.calls[c := u.calls[c]]
            && u.calls[c] == if good then Looking(ObjectKey(asset), parts, o)
                             else Done(ObjectKey(asset), Failed(InvalidArgument))
  {
    ValidPartsAreProper(upload, parts, o);
  }

  /** A publication that met an object and then finds it gone tries once more with S3 and gives up with
      files; it succeeds exactly on an object of the same bytes. */
  lemma VanishedObjectIsTriedOnceMore(w: World, k: Call)
    requires k.Comparing? && CallInv(w.driver, k)
    ensures CompareStep(w, k) ==
              if k.key in w.store && w.store[k.key] == k.bytes
                  then Done(k.key, Stored(|k.bytes|, Sha256(k.bytes), true))
              else if k.key !in w.store && w.driver == S3 && k.attempt == 0 then Publishing(k.key, k.bytes, 1, k.parts)
              else Done(k.key, Failed(Conflict))
    ensures w.driver == Local ==> k.attempt == 0
    ensures k.attempt <= 1
  {}

  /** A checked delete decides by the bytes it finds: with files at once, with S3 by the entity tag of
      what it checked, so that an object replaced meanwhile stays. */
  lemma DeletesWhatItChecked(w: World, key: Key, size: int64, digest: Digest, tag: Tag)
    ensures InspectStep(w, Inspecting(key, size, digest)) ==
              if key !in w.store then (w.store, Done(key, Removed))
              else if |w.store[key]| != size || w.store[key] != digest.of then (w.store, Done(key, Failed(Conflict)))
              else if w.driver == Local then (w.store - {key}, Done(key, Removed))
              else (w.store, Deleting(key, size, digest, Tag(w.store[key])))
    ensures DeleteStep(w, Deleting(key, size, digest, tag)).0 ==
              if key in w.store && w.store[key] == tag.of then w.store - {key} else w.store
    ensures DeleteStep(w, Deleting(key, size, digest, tag)).1 ==
              Done(key, if key in w.store && w.store[key] != tag.of then Failed(Conflict) else Removed)
  {
    if key !in w.store {
      assert w.store - {key} == w.store;
    }
  }
}
