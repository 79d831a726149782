/** Write-once object storage, internal/storage/s3_core.go and internal/storage/local.go: create-only
    publication, checked assembly and checked deletion, with any number of calls in flight. Each
    request to the object service and each locked file operation is one step. */
module ObjectStore {
  import opened Common

  /** SHA-256, and the entity tag of a stored object, as injective functions of the content. */
  datatype Digest = Sha256(of: Bytes)
  datatype Tag = Tag(of: Bytes)

  /** Generated keys. */
  datatype Key = PartKey(upload: string, number: int) | ObjectKey(asset: string)
      | ImmutableKey(asset: string, object: string, kind: string)

  datatype Driver = S3 | Local

  /** How often a publication tries to create the object. */
  function Tries(d: Driver): nat { if d.S3? then 2 else 1 }

  /** How a digest is written in a reference: canonical lowercase, other hexadecimal, or neither. */
  datatype Spelling = Lowercase | OtherCase | NotHexadecimal

  datatype PartRef = PartRef(number: int, key: Key, size: int64, sha256: Digest, spelling: Spelling)
  datatype Options = Options(expectedSize: int64, expectedDigest: Digest, maxBytes: int64)
  datatype StoreError = Conflict | InvalidArgument | TooLarge | OutOfOrder | InvalidKey | SizeMismatch
      | ChecksumMismatch | Missing

  // ---------------------------------------------------------------------------
  // Part references
  // ---------------------------------------------------------------------------

  function SizeSum(parts: seq<PartRef>): int {
    if parts == [] then 0 else SizeSum(parts[..|parts| - 1]) + parts[|parts| - 1].size
  }

  predicate ValidLimit(limit: int64) { 0 < limit < MAX_INT64 }

  predicate ValidPart(upload: string, parts: seq<PartRef>, i: nat)
    requires i < |parts|
  {
    && (if i == 0 then 0 else parts[i - 1].number) < parts[i].number
    && parts[i].key == PartKey(upload, parts[i].number)
    && 0 <= parts[i].size && parts[i].spelling.Lowercase?
  }

  /** Part numbers start at one or above and increase. */
  predicate Increasing(parts: seq<PartRef>) {
    forall i, j :: 0 <= i < j < |parts| ==> 0 < parts[i].number < parts[j].number
  }

  lemma {:induction false} ValidPartsIncrease(upload: string, parts: seq<PartRef>, n: nat)
    requires n <= |parts| && forall i :: 0 <= i < |parts| ==> ValidPart(upload, parts, i)
    ensures Increasing(parts[..n]) && (n > 0 ==> 0 < parts[n - 1].number)
  {
    if n > 0 {
      ValidPartsIncrease(upload, parts, n - 1);
      assert ValidPart(upload, parts, n - 1);
      var front := parts[..n - 1];
      assert parts[..n] == front + [parts[n - 1]];
      assert n > 1 ==> front[n - 2] == parts[n - 2];
    }
  }

  /** Numbers increase from one, keys belong to the upload, sizes add up to what is expected. */
  predicate ValidParts(upload: string, parts: seq<PartRef>, options: Options) {
    && (forall i :: 0 <= i < |parts| ==> ValidPart(upload, parts, i))
    && SizeSum(parts) == options.expectedSize
  }

  lemma {:induction false} PrefixSumsFit(upload: string, parts: seq<PartRef>, options: Options, i: nat)
    requires i <= |parts| && ValidParts(upload, parts, options)
    ensures SizeSum(parts[..i]) <= options.expectedSize
    decreases |parts| - i
  {
    if i == |parts| {
      assert parts[..i] == parts;
    } else {
      assert ValidPart(upload, parts, i);
      PrefixSumsFit(upload, parts, options, i + 1);
      assert parts[..i + 1][..i] == parts[..i];
    }
  }

  /** validatePartRefs in 64-bit arithmetic: the running sum never leaves the range. */
  method ValidatePartRefs(upload: string, parts: seq<PartRef>, options: Options) returns (error: Option<StoreError>)
    requires 0 <= options.expectedSize <= options.maxBytes
    ensures error.None? <==> ValidParts(upload, parts, options)
  {
    var declared: int64, previous := 0, 0;
    for i := 0 to |parts|
      invariant 0 <= declared == SizeSum(parts[..i]) <= options.maxBytes
      invariant previous == if i == 0 then 0 else parts[i - 1].number
      invariant forall k :: 0 <= k < i ==> ValidPart(upload, parts, k)
    {
      var part := parts[i];
      if part.number <= previous {
        assert !ValidPart(upload, parts, i);
        return Some(OutOfOrder);
      }
      previous := part.number;
      if part.key != PartKey(upload, part.number) {
        assert !ValidPart(upload, parts, i);
        return Some(InvalidKey);
      }
      assert parts[..i + 1][..i] == parts[..i];
      if part.size < 0 || declared > MAX_INT64 - part.size {
        if ValidParts(upload, parts, options) {
          assert ValidPart(upload, parts, i);
          PrefixSumsFit(upload, parts, options, i + 1);
          assert false;
        }
        return Some(InvalidArgument);
      }
      if part.spelling.NotHexadecimal? || part.spelling.OtherCase? {
        assert !ValidPart(upload, parts, i);
        return Some(InvalidArgument);
      }
      declared := declared + part.size;
      if declared > options.maxBytes {
        if ValidParts(upload, parts, options) {
          PrefixSumsFit(upload, parts, options, i + 1);
          assert false;
        }
        return Some(TooLarge);
      }
    }
    assert parts[..|parts|] == parts;
    if declared != options.expectedSize {
      return Some(SizeMismatch);
    }
    return None;
  }

  /** The bytes the references stand for: a digest determines its content. */
  function Concatenation(parts: seq<PartRef>): Bytes {
    if parts == [] then [] else Concatenation(parts[..|parts| - 1]) + parts[|parts| - 1].sha256.of
  }

  // ---------------------------------------------------------------------------
  // Calls in flight
  // ---------------------------------------------------------------------------

  datatype Outcome = Stored(size: int, digest: Digest, reused: bool) | Removed | Failed(error: StoreError)

  /** Where a call stands. The parts of a publication are history: those it was assembled from,
      none for a plain put. */
  datatype Call =
    | Publishing(key: Key, bytes: Bytes, attempt: nat, parts: seq<PartRef>)
    | Comparing(key: Key, bytes: Bytes, attempt: nat, parts: seq<PartRef>)
    | Looking(key: Key, parts: seq<PartRef>, options: Options)
    | Reading(key: Key, parts: seq<PartRef>, options: Options, next: nat, buffer: Bytes)
    | Inspecting(key: Key, size: int64, digest: Digest)
    | Deleting(key: Key, size: int64, digest: Digest, tag: Tag)
    | Done(key: Key, outcome: Outcome)

  datatype World = World(driver: Driver, store: map<Key, Bytes>, calls: map<nat, Call>)

  predicate Matches(store: map<Key, Bytes>, key: Key, size: int, digest: Digest) {
    key in store && |store[key]| == size && Sha256(store[key]) == digest
  }

  /** PutIfAbsent, or the hard link of the local driver. */
  function PublishStep(w: World, k: Call): (map<Key, Bytes>, Call)
    requires k.Publishing?
  {
    if k.key in w.store then (w.store, Comparing(k.key, k.bytes, k.attempt, k.parts))
    else (w.store[k.key := k.bytes], Done(k.key, Stored(|k.bytes|, Sha256(k.bytes), false)))
  }

  /** The look at what is there instead; an object gone meanwhile leads to the next try. */
  function CompareStep(w: World, k: Call): Call
    requires k.Comparing?
  {
    if Matches(w.store, k.key, |k.bytes|, Sha256(k.bytes)) then Done(k.key, Stored(|k.bytes|, Sha256(k.bytes), true))
    else if k.key in w.store || k.attempt + 1 >= Tries(w.driver) then Done(k.key, Failed(Conflict))
    else Publishing(k.key, k.bytes, k.attempt + 1, k.parts)
  }

  /** Assemble's first look at its target. */
  function LookStep(w: World, k: Call): Call
    requires k.Looking?
  {
    var o := k.options;
    if Matches(w.store, k.key, o.expectedSize, o.expectedDigest)
        then Done(k.key, Stored(o.expectedSize, o.expectedDigest, true))
    else if k.key in w.store then Done(k.key, Failed(Conflict))
    else Reading(k.key, k.parts, o, 0, [])
  }

  /** One part copied, or, after the last, the whole checked and handed to publication. */
  function ReadStep(w: World, k: Call): Call
    requires k.Reading? && k.next <= |k.parts|
  {
    var o := k.options;
    if k.next == |k.parts| then
      if |k.buffer| != o.expectedSize then Done(k.key, Failed(SizeMismatch))
      else if Sha256(k.buffer) != o.expectedDigest then Done(k.key, Failed(ChecksumMismatch))
      else Publishing(k.key, k.buffer, 0, k.parts)
    else
      var part := k.parts[k.next];
      if part.key !in w.store then Done(k.key, Failed(Missing))
      else
        var content := w.store[part.key];
        if |content| > o.maxBytes - |k.buffer| then Done(k.key, Failed(TooLarge))
        else if |content| != part.size then Done(k.key, Failed(SizeMismatch))
        else if Sha256(content) != part.sha256 then Done(k.key, Failed(ChecksumMismatch))
        else k.(next := k.next + 1, buffer := k.buffer + content)
  }

  /** DeleteObject: the local driver checks and removes under its lock, the S3 driver remembers
      the tag of what it checked. */
  function InspectStep(w: World, k: Call): (map<Key, Bytes>, Call)
    requires k.Inspecting?
  {
    if k.key !in w.store then (w.store, Done(k.key, Removed))
    else if !Matches(w.store, k.key, k.size, k.digest) then (w.store, Done(k.key, Failed(Conflict)))
    else if w.driver.Local? then (w.store - {k.key}, Done(k.key, Removed))
    else (w.store, Deleting(k.key, k.size, k.digest, Tag(w.store[k.key])))
  }

  /** DeleteIfMatch. */
  function DeleteStep(w: World, k: Call): (map<Key, Bytes>, Call)
    requires k.Deleting?
  {
    if k.key !in w.store then (w.store, Done(k.key, Removed))
    else if Tag(w.store[k.key]) != k.tag then (w.store, Done(k.key, Failed(Conflict)))
    else (w.store - {k.key}, Done(k.key, Removed))
  }

  datatype Action =
    | Put(key: Key, bytes: Bytes)
    | Assemble(upload: string, asset: string, parts: seq<PartRef>, options: Options)
    | Delete(key: Key, size: int64, digest: Digest)
    | Advance
    | Discard(upload: string, number: int)

  predicate CallOk(k: Call) { k.Reading? ==> k.next <= |k.parts| }

  /** A new call takes a free number; Discard, the removal of an upload's parts, needs no number. */
  predicate Ready(w: World, c: nat, a: Action) {
    match a
    case Advance => c in w.calls && CallOk(w.calls[c])
    case Discard(_, _) => true
    case _ => c !in w.calls
  }

  predicate ValidAssembly(upload: string, parts: seq<PartRef>, o: Options) {
    parts != [] && 0 <= o.expectedSize <= o.maxBytes && ValidLimit(o.maxBytes) && ValidParts(upload, parts, o)
  }

  function Next(w: World, c: nat, a: Action): World
    requires Ready(w, c, a)
  {
    match a
    case Put(key, bytes) => w.(calls := w.calls[c := Publishing(key, bytes, 0, [])])
    case Assemble(upload, asset, parts, o) =>
      w.(calls := w.calls[c := if ValidAssembly(upload, parts, o) then Looking(ObjectKey(asset), parts, o)
                          else Done(ObjectKey(asset), Failed(InvalidArgument))])
    case Delete(key, size, digest) => w.(calls := w.calls[c := Inspecting(key, size, digest)])
    case Discard(upload, number) => w.(store := w.store - {PartKey(upload, number)})
    case Advance =>
      var k := w.calls[c];
      match k
      case Publishing(_, _, _, _) => w.(store := PublishStep(w, k).0, calls := w.calls[c := PublishStep(w, k).1])
      case Comparing(_, _, _, _) => w.(calls := w.calls[c := CompareStep(w, k)])
      case Looking(_, _, _) => w.(calls := w.calls[c := LookStep(w, k)])
      case Reading(_, _, _, _, _) => w.(calls := w.calls[c := ReadStep(w, k)])
      case Inspecting(_, _, _) => w.(store := InspectStep(w, k).0, calls := w.calls[c := InspectStep(w, k).1])
      case Deleting(_, _, _, _) => w.(store := DeleteStep(w, k).0, calls := w.calls[c := DeleteStep(w, k).1])
      case Done(_, _) => w
  }

  // ---------------------------------------------------------------------------
  // Every interleaving
  // ---------------------------------------------------------------------------

  /** What a call in flight has established. */
  predicate CallInv(d: Driver, k: Call) {
    match k
    case Publishing(_, bytes, attempt, parts) =>
      attempt < Tries(d) && Increasing(parts) && (parts != [] ==> bytes == Concatenation(parts))
    case Comparing(_, bytes, attempt, parts) =>
      attempt < Tries(d) && Increasing(parts) && (parts != [] ==> bytes == Concatenation(parts))
    case Looking(_, parts, o) => parts != [] && Increasing(parts) && ValidLimit(o.maxBytes)
    case Reading(_, parts, o, next, buffer) =>
      && next <= |parts| && Increasing(parts) && ValidLimit(o.maxBytes)
      && buffer == Concatenation(parts[..next]) && |buffer| <= o.maxBytes
    case Deleting(_, size, digest, tag) => |tag.of| == size && Sha256(tag.of) == digest
    case _ => true
  }

  predicate Inv(w: World) { forall c :: c in w.calls ==> CallInv(w.driver, w.calls[c]) }

  lemma ReadStepKeeps(w: World, k: Call)
    requires k.Reading? && CallInv(w.driver, k)
    ensures CallInv(w.driver, ReadStep(w, k))
  {
    if k.next < |k.parts| {
      assert k.parts[..k.next + 1][..k.next] == k.parts[..k.next];
    } else {
      assert k.parts[..|k.parts|] == k.parts;
    }
  }

  lemma AdvanceKeeps(w: World, c: nat)
    requires Inv(w) && Ready(w, c, Advance)
    ensures var v := Next(w, c, Advance);
            v.driver == w.driver && v.calls == w.calls[c := v.calls[c]] && CallInv(w.driver, v.calls[c])
  {
    assert CallInv(w.driver, w.calls[c]);
    if w.calls[c].Reading? {
      ReadStepKeeps(w, w.calls[c]);
    }
  }

  lemma NextKeepsInv(w: World, c: nat, a: Action)
    requires Inv(w) && Ready(w, c, a)
    ensures Inv(Next(w, c, a))
  {
    if a.Advance? {
      AdvanceKeeps(w, c);
    } else if a.Assemble? && ValidAssembly(a.upload, a.parts, a.options) {
      ValidPartsIncrease(a.upload, a.parts, |a.parts|);
      assert a.parts[..|a.parts|] == a.parts;
    }
  }

  /** The keys an action may take away. */
  predicate MayRemove(w: World, c: nat, a: Action, key: Key)
    requires Ready(w, c, a)
  {
    || (a.Discard? && key == PartKey(a.upload, a.number))
    || (a.Advance? && (w.calls[c].Inspecting? || w.calls[c].Deleting?) && w.calls[c].key == key)
  }

  /** No step changes the bytes of an occupied key; only a delete empties it, and a checked
      delete only when the bytes have the size and digest it was asked to delete. */
  lemma OccupiedKeysKeepTheirBytes(w: World, c: nat, a: Action, key: Key)
    requires Inv(w) && Ready(w, c, a) && key in w.store
    ensures var v := Next(w, c, a);
            if key in v.store then v.store[key] == w.store[key]
            else MayRemove(w, c, a, key) && (a.Advance? ==> Matches(w.store, key, w.calls[c].size, w.calls[c].digest))
  {
    if a.Advance? && w.calls[c].Deleting? {
      assert CallInv(w.driver, w.calls[c]);
    }
  }

  /** The bytes a call promises to have stored, once it is past its checks. */
  predicate Promises(k: Call, size: int, digest: Digest) {
    match k
    case Publishing(_, bytes, _, _) => size == |bytes| && digest == Sha256(bytes)
    case Comparing(_, bytes, _, _) => size == |bytes| && digest == Sha256(bytes)
    case Looking(_, _, o) => size == o.expectedSize && digest == o.expectedDigest
    case _ => false
  }

  /** A call that reports success held the reported bytes at its key at that very step. */
  lemma SuccessReportsStoredBytes(w: World, c: nat)
    requires Inv(w) && Ready(w, c, Advance) && !w.calls[c].Done?
    ensures var v := Next(w, c, Advance);
            var k := v.calls[c];
            k.Done? && k.outcome.Stored? ==>
              && Matches(v.store, k.key, k.outcome.size, k.outcome.digest)
              && Promises(w.calls[c], k.outcome.size, k.outcome.digest)
              && (k.outcome.reused ==> Matches(w.store, k.key, k.outcome.size, k.outcome.digest))
              && (!k.outcome.reused ==> k.key !in w.store)
  {}

  /** A put that nobody disturbs stores its bytes exactly if the key is free or holds them already,
      and reports a conflict otherwise; in no case does it replace anything. */
  lemma UndisturbedPut(w: World, c: nat)
    requires Inv(w) && c in w.calls && w.calls[c].Publishing?
    ensures var k, v := w.calls[c], Next(w, c, Advance);
            var end := if v.calls[c].Done? then v else Next(v, c, Advance);
            && end.calls[c] == Done(k.key, if k.key in w.store && w.store[k.key] != k.bytes then Failed(Conflict)
                                           else Stored(|k.bytes|, Sha256(k.bytes), k.key in w.store))
            && end.store == if k.key in w.store then w.store else w.store[k.key := k.bytes]
  {}

  /** A delete that nobody disturbs empties the key exactly if it holds the expected bytes, and
      succeeds also if there is nothing to delete. */
  lemma UndisturbedDelete(w: World, c: nat)
    requires Inv(w) && c in w.calls && w.calls[c].Inspecting?
    ensures var k, v := w.calls[c], Next(w, c, Advance);
            var end := if v.calls[c].Done? then v else Next(v, c, Advance);
            && end.calls[c] == Done(k.key, if k.key !in w.store || Matches(w.store, k.key, k.size, k.digest)
                                    then Removed else Failed(Conflict))
            && end.store == if Matches(w.store, k.key, k.size, k.digest) then w.store - {k.key} else w.store
  {}

  predicate IsRun(w: World, run: seq<(nat, Action)>)
    decreases |run|
  {
    run == [] || (Ready(w, run[0].0, run[0].1) && IsRun(Next(w, run[0].0, run[0].1), run[1..]))
  }

  function Run(w: World, run: seq<(nat, Action)>): World
    requires IsRun(w, run)
    decreases |run|
  {
    if run == [] then w else Run(Next(w, run[0].0, run[0].1), run[1..])
  }

  lemma {:induction false} RunKeepsInv(w: World, run: seq<(nat, Action)>)
    requires Inv(w) && IsRun(w, run)
    ensures Inv(Run(w, run))
    decreases |run|
  {
    if run != [] {
      NextKeepsInv(w, run[0].0, run[0].1);
      RunKeepsInv(Next(w, run[0].0, run[0].1), run[1..]);
    }
  }

  /** Whether the run ever removes the key. */
  predicate Removes(w: World, run: seq<(nat, Action)>, key: Key)
    requires IsRun(w, run)
    decreases |run|
  {
    run != [] && var v := Next(w, run[0].0, run[0].1); (key in w.store && key !in v.store) || Removes(v, run[1..], key)
  }

  /** Under every interleaving of puts, assembles and deletes, an occupied key keeps its bytes
      until a delete removes it. */
  lemma {:induction false} WriteOnce(w: World, run: seq<(nat, Action)>, key: Key)
    requires Inv(w) && IsRun(w, run) && key in w.store && !Removes(w, run, key)
    ensures key in Run(w, run).store && Run(w, run).store[key] == w.store[key]
    decreases |run|
  {
    if run != [] {
      NextKeepsInv(w, run[0].0, run[0].1);
      OccupiedKeysKeepTheirBytes(w, run[0].0, run[0].1, key);
      WriteOnce(Next(w, run[0].0, run[0].1), run[1..], key);
    }
  }

  lemma OthersKeepCall(w: World, c: nat, a: Action, d: nat)
    requires Ready(w, c, a) && d in w.calls && (d != c || !a.Advance?)
    ensures d in Next(w, c, a).calls && Next(w, c, a).calls[d] == w.calls[d]
  {}

  lemma {:induction false} RunSplits(w: World, run: seq<(nat, Action)>, n: nat)
    requires IsRun(w, run) && n <= |run|
    ensures IsRun(w, run[..n]) && IsRun(Run(w, run[..n]), run[n..]) && Run(Run(w, run[..n]), run[n..]) == Run(w, run)
    decreases |run|
  {
    if n == 0 {
      assert run[..0] == [] && run[0..] == run;
    } else {
      RunSplits(Next(w, run[0].0, run[0].1), run[1..], n - 1);
      assert run[..n][1..] == run[1..][..n - 1] && run[n..] == run[1..][n - 1..];
    }
  }

  /** After n steps of a run. */
  function After(w: World, run: seq<(nat, Action)>, n: nat): World
    requires IsRun(w, run) && n <= |run|
  {
    RunSplits(w, run, n);
    Run(w, run[..n])
  }

  lemma AfterFirst(w: World, run: seq<(nat, Action)>, n: nat)
    requires IsRun(w, run) && n < |run|
    ensures After(w, run, n + 1) == After(Next(w, run[0].0, run[0].1), run[1..], n) && After(w, run, 0) == w
  {
    RunSplits(w, run, n + 1);
    assert run[..n + 1][1..] == run[1..][..n];
  }

  /** Call c ends here in success, and its key holds what it reports. */
  ghost predicate EndsStored(w: World, v: World, c: nat, k: Call) {
    && c in w.calls && !w.calls[c].Done? && c in v.calls && v.calls[c] == k
    && k.Done? && k.outcome.Stored? && Matches(v.store, k.key, k.outcome.size, k.outcome.digest)
  }

  /** Under every interleaving, whoever else puts, assembles or deletes: a call that ends in success
      reports the size and digest of the bytes its key holds at the very step that ends it. */
  lemma {:induction false} SuccessMeansHeld(w: World, run: seq<(nat, Action)>, c: nat) returns (n: nat)
    requires Inv(w) && IsRun(w, run) && (c in w.calls ==> !w.calls[c].Done?) && c in Run(w, run).calls
    requires Run(w, run).calls[c].Done? && Run(w, run).calls[c].outcome.Stored?
    ensures n < |run| && EndsStored(After(w, run, n), After(w, run, n + 1), c, Run(w, run).calls[c])
    decreases |run|
  {
    assert run != [];
    var d, a := run[0].0, run[0].1;
    var v, rest := Next(w, d, a), run[1..];
    NextKeepsInv(w, d, a);
    AfterFirst(w, run, 0);
    if c in v.calls && v.calls[c].Done? {
      DoneStaysDone(v, rest, c);
      n := 0;
      assert After(v, rest, 0) == v;
      if c in w.calls {
        if c != d || !a.Advance? {
          OthersKeepCall(w, d, a, c);
        }
        SuccessReportsStoredBytes(w, c);
      }
    } else {
      var m := SuccessMeansHeld(v, rest, c);
      AfterFirst(w, run, m);
      AfterFirst(w, run, m + 1);
      n := m + 1;
    }
  }

  lemma {:induction false} DoneStaysDone(w: World, run: seq<(nat, Action)>, c: nat)
    requires IsRun(w, run) && c in w.calls && w.calls[c].Done?
    ensures c in Run(w, run).calls && Run(w, run).calls[c] == w.calls[c]
    decreases |run|
  {
    if run != [] {
      if run[0].0 != c || !run[0].1.Advance? {
        OthersKeepCall(w, run[0].0, run[0].1, c);
      }
      DoneStaysDone(Next(w, run[0].0, run[0].1), run[1..], c);
    }
  }

  // ---------------------------------------------------------------------------
  // Assembly
  // ---------------------------------------------------------------------------

  /** The parts an assembly is made of, in every stage that can end it successfully. */
  function Assembling(k: Call): seq<PartRef> {
    match k
    case Publishing(_, _, _, parts) => parts
    case Comparing(_, _, _, parts) => parts
    case Looking(_, parts, _) => parts
    case Reading(_, parts, _, _, _) => parts
    case _ => []
  }

  /** An assembly that found its target absent goes on with its parts; the buffer it publishes has
      the expected size and digest, and its size has never left the 64-bit range. */
  lemma AssemblyChecksWhatItRead(w: World, c: nat)
    requires Inv(w) && Ready(w, c, Advance) && w.calls[c].Reading?
    ensures var k, next := w.calls[c], Next(w, c, Advance).calls[c];
            && |k.buffer| <= k.options.maxBytes < MAX_INT64
            && (next.Publishing? ==>
                |next.bytes| == k.options.expectedSize && Sha256(next.bytes) == k.options.expectedDigest)
            && (!next.Done? ==> Assembling(next) == k.parts)
  {
    assert CallInv(w.driver, w.calls[c]);
  }

  /** Call c, which is assembling the parts, ends successfully in the step from w to v. The target
      then holds bytes of the reported size and digest; they are the concatenation of the parts,
      whether it published them or found them published, except that a target found occupied at
      first look is taken without reading a part, and then is the concatenation if and only if the
      caller's digest is the concatenation's digest. */
  ghost predicate EndsAssembled(w: World, v: World, c: nat, key: Key, parts: seq<PartRef>, o: Options) {
    && c in w.calls && !w.calls[c].Done? && c in v.calls && v.calls[c].Done? && v.calls[c].key == key
       && v.calls[c].outcome.Stored?
    && v.calls[c].outcome.size == o.expectedSize && v.calls[c].outcome.digest == o.expectedDigest
    && Matches(v.store, key, o.expectedSize, o.expectedDigest)
    && (v.store[key] == Concatenation(parts) <==>
        (w.calls[c].Looking? ==> o.expectedDigest == Sha256(Concatenation(parts))))
  }

  /** k is a stage of the assembly of these parts into this target. */
  predicate StageOf(k: Call, key: Key, parts: seq<PartRef>, o: Options) {
    && k.key == key && Assembling(k) == parts
    && match k
       case Publishing(_, bytes, _, _) => |bytes| == o.expectedSize && Sha256(bytes) == o.expectedDigest
       case Comparing(_, bytes, _, _) => |bytes| == o.expectedSize && Sha256(bytes) == o.expectedDigest
       case Looking(_, _, options) => options == o
       case Reading(_, _, options, _, _) => options == o
       case _ => false
  }

  /** One step of the call: it goes to another stage of the same assembly, fails, or ends as it should. */
  lemma StageAdvances(w: World, c: nat, key: Key, parts: seq<PartRef>, o: Options)
    requires Inv(w) && Ready(w, c, Advance) && StageOf(w.calls[c], key, parts, o) && parts != []
    ensures var v := Next(w, c, Advance);
            || StageOf(v.calls[c], key, parts, o)
            || (v.calls[c].Done? && v.calls[c].outcome.Failed?)
            || EndsAssembled(w, v, c, key, parts, o)
  {
    assert CallInv(w.driver, w.calls[c]);
  }

  lemma {:induction false} StageEnds(w: World, run: seq<(nat, Action)>, c: nat, key: Key, parts: seq<PartRef>,
                                     o: Options) returns (n: nat)
    requires Inv(w) && IsRun(w, run) && c in w.calls && StageOf(w.calls[c], key, parts, o) && parts != []
    requires c in Run(w, run).calls && Run(w, run).calls[c].Done? && Run(w, run).calls[c].outcome.Stored?
    ensures n < |run| && EndsAssembled(After(w, run, n), After(w, run, n + 1), c, key, parts, o)
    decreases |run|
  {
    assert run != [];
    var d, a := run[0].0, run[0].1;
    var v, rest := Next(w, d, a), run[1..];
    NextKeepsInv(w, d, a);
    if d != c || !a.Advance? {
      OthersKeepCall(w, d, a, c);
    } else {
      StageAdvances(w, c, key, parts, o);
    }
    AfterFirst(w, run, 0);
    if v.calls[c].Done? {
      DoneStaysDone(v, rest, c);
      n := 0;
      assert After(v, rest, 0) == v;
    } else {
      var m := StageEnds(v, rest, c, key, parts, o);
      AfterFirst(w, run, m);
      AfterFirst(w, run, m + 1);
      n := m + 1;
    }
  }

  /** Under every interleaving: an Assemble call that ends successfully does so at some step of the
      run at which its target holds the expected bytes, and these are the concatenation of exactly
      the parts it was called with, in increasing part number, except for the reuse of a target
      found occupied at first look, under the condition above. */
  lemma SuccessfulAssemblyIsConcatenation(w: World, run: seq<(nat, Action)>, i: nat, c: nat, upload: string,
                                          asset: string, parts: seq<PartRef>, o: Options)
    returns (n: nat)
    requires Inv(w) && IsRun(w, run) && i < |run| && run[i] == (c, Assemble(upload, asset, parts, o))
    requires c in Run(w, run).calls && Run(w, run).calls[c].Done? && Run(w, run).calls[c].outcome.Stored?
    ensures Increasing(parts)
    ensures i < n < |run| && EndsAssembled(After(w, run, n), After(w, run, n + 1), c, ObjectKey(asset), parts, o)
  {
    StepAt(w, run, i);
    RunSplits(w, run, i + 1);
    RunKeepsInv(w, run[..i + 1]);
    var v, rest := After(w, run, i + 1), run[i + 1..];
    if !ValidAssembly(upload, parts, o) {
      DoneStaysDone(v, rest, c);
      assert false;
    }
    ValidPartsIncrease(upload, parts, |parts|);
    assert parts[..|parts|] == parts;
    var m := StageEnds(v, rest, c, ObjectKey(asset), parts, o);
    n := i + 1 + m;
    AfterSplit(w, run, i + 1, m);
    AfterSplit(w, run, i + 1, m + 1);
  }

  lemma StepAt(w: World, run: seq<(nat, Action)>, i: nat)
    requires IsRun(w, run) && i < |run|
    ensures Ready(After(w, run, i), run[i].0, run[i].1)
            && After(w, run, i + 1) == Next(After(w, run, i), run[i].0, run[i].1)
  {
    AfterSplit(w, run, i, 1);
    AfterFirst(After(w, run, i), run[i..], 0);
    assert After(Next(After(w, run, i), run[i].0, run[i].1), run[i..][1..], 0)
           == Next(After(w, run, i), run[i].0, run[i].1);
  }

  lemma AfterSplit(w: World, run: seq<(nat, Action)>, i: nat, m: nat)
    requires IsRun(w, run) && i + m <= |run|
    ensures IsRun(After(w, run, i), run[i..]) && After(w, run, i + m) == After(After(w, run, i), run[i..], m)
  {
    RunSplits(w, run, i);
    RunSplits(w, run, i + m);
    RunSplits(w, run[..i + m], i);
    assert run[..i + m][..i] == run[..i] && run[..i + m][i..] == run[i..][..m];
  }

  /** A target that is not the concatenation of the parts and is yet reused. */
  lemma ReuseIgnoresParts() returns (w: World)
    ensures Inv(w) && Ready(w, 0, Advance) && w.calls[0].Looking?
            && ValidAssembly("u", w.calls[0].parts, w.calls[0].options)
    ensures var v := Next(w, 0, Advance);
            && v.calls[0] == Done(ObjectKey("a"), Stored(1, Sha256([7]), true))
            && ObjectKey("a") in v.store && v.store[ObjectKey("a")] != Concatenation(w.calls[0].parts)
  {
    var parts, options := [PartRef(1, PartKey("u", 1), 1, Sha256([8]), Lowercase)], Options(1, Sha256([7]), 10);
    w := World(S3, map[ObjectKey("a") := [7]], map[0 := Looking(ObjectKey("a"), parts, options)]);
    assert parts[..0] == [];
    assert SizeSum(parts) == 1;
    assert Concatenation(parts)[0] == 8;
  }
}
