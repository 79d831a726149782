/** What every run of the realtime protocol keeps: the session row and the retained provider
    stream stay in step across any interleaving of connections, disconnects and resumes. */
module RealtimeRuns {
  import opened Common
  import opened RealtimeSession
  import opened RealtimeProvider
  import opened RealtimeHub
  import opened RealtimeProtocol

  // ---------------------------------------------------------------------------
  // The invariant
  // ---------------------------------------------------------------------------

  predicate SameFormat(a: Session, b: Session) {
    a.sampleRateHz == b.sampleRateHz && a.channels == b.channels && a.frameDurationMs == b.frameDurationMs
    && a.encoding == b.encoding && a.id == b.id
  }

  /** A saved change that leaves the audio counters and the format alone. */
  ghost predicate Quiet(s: Session, u: Session) {
    && u.version == s.version + 1 && SameFormat(s, u)
    && exists t: Transition :: !t.Audio? && Apply(s, t) == Ok(u)
  }

  /** A saved change that accepts one frame. */
  ghost predicate AudioChange(s: Session, u: Session, e: AudioEvent) {
    && u.version == s.version + 1 && SameFormat(s, u)
    && e.pcm.Some?
    && exists now :: ApplyAudio(s, e, now) == Ok((u, Accepted))
  }

  /** A connection that saved a frame it has not pushed yet, or is about to close the stream. */
  predicate Unsettled(k: Connection) {
    k.Pushing? || k.Closing? || (k.Failing? && k.holding.Some?)
        || (k.Saving? && k.holding.Some? && k.purpose.ForFailure?)
  }

  predicate Starter(k: Connection) { k.Created? || k.Checked? }
  predicate Active(k: Connection) { Held(k).Some? }

  /** The highest transcript revision a connection has seen, when it still matters. */
  function Seen(k: Connection): Option<int> {
    match k
    case Serving(_, revision) => Some(revision)
    case Retrying(_, revision, _, _) => Some(revision)
    case Pushing(_, revision, _) => Some(revision)
    case Saving(_, ForAudio(revision, _, _), _, _) => Some(revision)
    case Saving(_, ForFinish(revision), _, _) => Some(revision)
    case _ => None
  }

  // --- leases -----------------------------------------------------------------

  ghost predicate StreamOk(e: Entry) {
    EntryInv(e) && e.stream.revision >= 0 && FixtureOk(e.stream.segments, e.stream.chinese)
  }

  /** The lease of a connection is the current one: nobody has superseded or detached it. */
  ghost predicate HoldOk(entries: seq<Entry>, k: Connection) {
    Held(k).Some? ==>
      var h := Held(k).value;
      && h.entry < |entries|
      && h.lease == entries[h.entry].lease
      && (entries[h.entry].closed || entries[h.entry].attached)
      && (Seen(k).Some? ==> Seen(k).value <= entries[h.entry].stream.revision)
  }

  ghost predicate PlaceOk(entries: seq<Entry>, k: Connection) {
    && HoldOk(entries, k)
    && (k.ResumeFound? ==> k.entry < |entries|)
    && (Starter(k) ==> entries == [])
  }

  /** One stream at most, every lease current, and at most one connection that holds a lease or
      is still opening the stream. */
  ghost predicate LeaseInv(w: World) {
    && |w.entries| <= 1
    && (w.entries != [] ==> StreamOk(w.entries[0]))
    && (w.registered.Some? ==> w.registered.value < |w.entries|)
    && (forall c :: c in w.connections ==> PlaceOk(w.entries, w.connections[c]))
    && (forall a, b :: a in w.connections && b in w.connections ==>
          Active(w.connections[a]) && Active(w.connections[b]) ==> a == b)
    && (forall a, b :: a in w.connections && b in w.connections ==>
          Starter(w.connections[a]) && Starter(w.connections[b]) ==> a == b)
  }

  // --- rows -------------------------------------------------------------------

  /** A pending save was computed from this session's row, and from the present one if the version
      has not moved since. */
  ghost predicate PendingOk(row: Session, k: Connection) {
    k.Saving? ==>
      && k.snapshot.version <= row.version
      && (k.snapshot.version == row.version ==> k.snapshot == row)
      && (if k.purpose.ForAudio? then k.holding.Some? && AudioChange(k.snapshot, k.updated, k.purpose.event)
          else Quiet(k.snapshot, k.updated))
  }

  ghost predicate KnowsRow(row: Option<Session>, k: Connection) {
    && (row.None? ==> k.Done?)
    && (row.Some? ==> PendingOk(row.value, k) && (Starter(k) ==> SameFormat(k.session, row.value)))
    && (k.Pushing? ==> k.event.pcm.Some?)
  }

  ghost predicate KnowledgeInv(w: World) {
    && (w.row.None? ==> w.entries == [] && w.registered.None?)
    && (w.entries == [] ==> w.frames == [])
    && (forall c :: c in w.connections ==> KnowsRow(w.row, w.connections[c]))
  }

  /** The row's counters count the saved frames. */
  ghost predicate RowInv(w: World) {
    w.row.Some? ==> SessionInv(w.row.value) && Counts(w.row.value, w.frames)
  }

  // --- agreement --------------------------------------------------------------

  ghost predicate Settled(w: World) {
    forall c :: c in w.connections ==> !Unsettled(w.connections[c])
  }

  /** The stream is open, so it is the one the session's audio goes to. */
  predicate Live(w: World) { w.entries != [] && w.row.Some? && !w.entries[0].closed }

  /** The last frame saved is the one the connection is about to push; the stream has the others. */
  ghost predicate OneBehind(w: World, e: AudioEvent)
    requires Live(w)
  {
    && w.frames != [] && w.frames[|w.frames| - 1] == e
    && InStep(w.entries[0].stream, w.row.value, w.frames[..|w.frames| - 1])
  }

  ghost predicate AgreeInv(w: World) {
    Live(w) ==>
      && (forall c :: c in w.connections && w.connections[c].Pushing? ==> OneBehind(w, w.connections[c].event))
      && (Settled(w) ==> InStep(w.entries[0].stream, w.row.value, w.frames))
  }

  ghost predicate Inv(w: World) {
    LeaseInv(w) && KnowledgeInv(w) && AgreeInv(w)
  }

  const EMPTY_WORLD: World := World(None, [], [], None, map[])

  // ---------------------------------------------------------------------------
  // Row changes
  // ---------------------------------------------------------------------------

  lemma QuietTransition(s: Session, t: Transition)
    requires !t.Audio? && Apply(s, t).Ok?
    ensures Quiet(s, Apply(s, t).value)
  {}

  lemma AcceptedChange(s: Session, e: AudioEvent, now: Time)
    requires ApplyAudio(s, e, now).Ok? && ApplyAudio(s, e, now).value.1.Accepted?
    ensures AudioChange(s, ApplyAudio(s, e, now).value.0, e)
  {
    assert ApplyAudio(s, e, now) == Ok((ApplyAudio(s, e, now).value.0, Accepted));
  }

  lemma QuietKeepsRow(s: Session, u: Session, frames: seq<AudioEvent>)
    requires Quiet(s, u) && SessionInv(s) && Counts(s, frames)
    ensures SessionInv(u) && Counts(u, frames)
  {
    var t: Transition :| !t.Audio? && Apply(s, t) == Ok(u);
    StepKeepsInv(s, t);
    OtherStepsKeepFrames(s, t);
  }

  lemma AudioChangeExtends(s: Session, u: Session, e: AudioEvent, frames: seq<AudioEvent>)
    requires AudioChange(s, u, e) && SessionInv(s) && Counts(s, frames)
    ensures SessionInv(u) && Counts(u, frames + [e])
  {
    var now :| ApplyAudio(s, e, now) == Ok((u, Accepted));
    AudioKeepsInv(s, e, now);
    AcceptedFrameExtends(s, frames, e, now);
  }

  // ---------------------------------------------------------------------------
  // Steps that only move one connection
  // ---------------------------------------------------------------------------

  /** k may take the place of connection c as far as leases are concerned: it is fine by itself
      and holds a lease, or opens the stream, only if the connection did before. */
  ghost predicate MayHold(w: World, c: nat, k: Connection) {
    && PlaceOk(w.entries, k)
    && (Active(k) ==> c in w.connections && Active(w.connections[c]))
    && (Starter(k) ==> c in w.connections && Starter(w.connections[c]))
  }

  /** What lets a connection move to k without touching anything else: besides, it knows the row
      and is unsettled if the connection was and the stream is still open. */
  ghost predicate MayMove(w: World, c: nat, k: Connection) {
    && MayHold(w, c, k) && KnowsRow(w.row, k) && !k.Pushing?
    && (c in w.connections && Unsettled(w.connections[c]) && Live(w) ==> Unsettled(k))
  }

  lemma MoveKeepsLeases(w: World, c: nat, k: Connection)
    requires LeaseInv(w) && MayHold(w, c, k)
    ensures LeaseInv(Put(w, c, k))
  {}

  lemma MoveKeepsAgreement(w: World, c: nat, k: Connection)
    requires AgreeInv(w) && MayMove(w, c, k)
    ensures AgreeInv(Put(w, c, k))
  {
    var v := Put(w, c, k);
    if Live(v) {
      if Settled(v) {
        forall d | d in w.connections
          ensures !Unsettled(w.connections[d])
        {
          assert !Unsettled(v.connections[d]);
        }
      }
      forall d | d in v.connections && v.connections[d].Pushing?
        ensures OneBehind(v, v.connections[d].event)
      {
        assert OneBehind(w, w.connections[d].event);
      }
    }
  }

  lemma MoveKeepsInv(w: World, c: nat, k: Connection)
    requires Inv(w) && MayMove(w, c, k)
    ensures Inv(Put(w, c, k))
  {
    MoveKeepsLeases(w, c, k);
    MoveKeepsAgreement(w, c, k);
  }

  lemma LookUpKeepsInv(w: World, c: nat)
    requires Inv(w) && Ready(w, c, LookUp)
    ensures Inv(LookUpStep(w, c))
  {
    MoveKeepsInv(w, c, if w.registered.Some? then Failing(None, NO_STREAM) else Checked(w.connections[c].session));
  }

  lemma ReadForResumeKeepsInv(w: World, c: nat, e: ResumeEvent)
    requires Inv(w) && Ready(w, c, ReadForResume(e))
    ensures Inv(ReadForResumeStep(w, c, e))
  {
    if w.row.None? || !w.row.value.state.Interrupted? {
      MoveKeepsInv(w, c, Done);
    } else {
      MoveKeepsInv(w, c, ResumeRead(w.row.value, e));
    }
  }

  lemma FindStreamKeepsInv(w: World, c: nat)
    requires Inv(w) && Ready(w, c, FindStream)
    ensures Inv(FindStreamStep(w, c))
  {
    var k := w.connections[c];
    assert KnowsRow(w.row, k);
    if w.registered.None? {
      MoveKeepsInv(w, c, Failing(None, "stream_timeout"));
    } else {
      MoveKeepsInv(w, c, ResumeFound(k.current, k.resume, w.registered.value));
    }
  }

  /** A connection that holds a lease may read the row and prepare a quiet save, keeping the lease. */
  lemma PrepareKeepsInv(w: World, c: nat, purpose: Purpose, u: Session)
    requires Inv(w) && w.row.Some? && c in w.connections && Quiet(w.row.value, u)
    requires !purpose.ForAudio? && (purpose.ForFinish? ==> Seen(w.connections[c]) == Some(purpose.revision))
    requires Unsettled(w.connections[c]) && Active(w.connections[c]) ==> purpose.ForFailure?
    ensures Inv(Put(w, c, Saving(Held(w.connections[c]), purpose, w.row.value, u)))
  {
    assert PlaceOk(w.entries, w.connections[c]);
    MoveKeepsInv(w, c, Saving(Held(w.connections[c]), purpose, w.row.value, u));
  }

  /** Or it may move to another point with the same lease, or to one that is about to close it. */
  lemma StepAsideKeepsInv(w: World, c: nat, k: Connection)
    requires Inv(w) && w.row.Some? && c in w.connections
    requires Held(k) == Held(w.connections[c]) && (Seen(k).Some? ==> Seen(k) == Seen(w.connections[c]))
    requires !k.Saving? && !k.Pushing? && !Starter(k) && !k.ResumeFound?
    requires Unsettled(w.connections[c]) ==> Unsettled(k)
    ensures Inv(Put(w, c, k))
  {
    assert PlaceOk(w.entries, w.connections[c]);
    MoveKeepsInv(w, c, k);
  }

  /** The common shape of a step that reads the row, tries a transition and prepares to save it. */
  lemma AttemptKeepsInv(w: World, c: nat, purpose: Purpose, r: Result<Session, Error>, otherwise: Connection)
    requires Inv(w) && w.row.Some? && c in w.connections
    requires r.Ok? ==> Quiet(w.row.value, r.value)
    requires !purpose.ForAudio? && (purpose.ForFinish? ==> Seen(w.connections[c]) == Some(purpose.revision))
    requires Unsettled(w.connections[c]) && Active(w.connections[c]) ==> purpose.ForFailure?
    requires r.Err? ==>
      && Held(otherwise) == Held(w.connections[c])
         && (Seen(otherwise).Some? ==> Seen(otherwise) == Seen(w.connections[c]))
      && !otherwise.Saving? && !otherwise.Pushing? && !Starter(otherwise) && !otherwise.ResumeFound?
      && (Unsettled(w.connections[c]) ==> Unsettled(otherwise))
    ensures Inv(Attempted(w, c, purpose, r, otherwise))
  {
    if r.Ok? {
      PrepareKeepsInv(w, c, purpose, r.value);
    } else {
      StepAsideKeepsInv(w, c, otherwise);
    }
  }

  lemma ReadResumeKeepsInv(w: World, c: nat, now: Time)
    requires Inv(w) && Ready(w, c, ReadResume(now))
    ensures Inv(ReadResumeStep(w, c, now))
  {
    var k := w.connections[c];
    if RealtimeSession.Resume(w.row.value, k.resume, now).Ok? {
      QuietTransition(w.row.value, Resumption(k.resume, now));
    }
    AttemptKeepsInv(w, c, ForResume(k.current.reconnectBy), RealtimeSession.Resume(w.row.value, k.resume, now),
                    Detaching(k.handle, k.current.reconnectBy));
  }

  lemma ReadAudioKeepsInv(w: World, c: nat, h: Handle, revision: int, e: AudioEvent, attempt: nat, now: Time)
    requires Inv(w) && w.row.Some? && c in w.connections && (w.connections[c].Serving? || w.connections[c].Retrying?)
    requires Held(w.connections[c]) == Some(h) && Seen(w.connections[c]) == Some(revision)
    ensures Inv(ReadAudioStep(w, c, h, revision, e, attempt, now))
  {
    match ApplyAudio(w.row.value, e, now)
    case Err(error) =>
      StepAsideKeepsInv(w, c, if Retriable(error) then Serving(h, revision) else Retaining(h));
    case Ok((_, Duplicate)) =>
      StepAsideKeepsInv(w, c, Serving(h, revision));
    case Ok((u, Accepted)) =>
      AcceptedChange(w.row.value, e, now);
      assert PlaceOk(w.entries, w.connections[c]);
      MoveKeepsInv(w, c, Saving(Some(h), ForAudio(revision, e, attempt), w.row.value, u));
  }

  lemma ReadInterruptKeepsInv(w: World, c: nat, now: Time)
    requires Inv(w) && Ready(w, c, ReadInterrupt(now))
    ensures Inv(ReadInterruptStep(w, c, now))
  {
    if Interrupt(w.row.value, now, DEFAULT_RECONNECT_WINDOW).Ok? {
      QuietTransition(w.row.value, Interruption(now, DEFAULT_RECONNECT_WINDOW));
    }
    AttemptKeepsInv(w, c, ForInterrupt, Interrupt(w.row.value, now, DEFAULT_RECONNECT_WINDOW),
                    Closing(w.connections[c].handle));
  }

  lemma ReadFinishKeepsInv(w: World, c: nat, e: FinishEvent, now: Time)
    requires Inv(w) && Ready(w, c, ReadFinish(e, now))
    ensures Inv(ReadFinishStep(w, c, e, now))
  {
    var k, r := w.connections[c], BeginFinalization(w.row.value, e, now);
    if r.Ok? {
      QuietTransition(w.row.value, Finalization(e, now));
    }
    AttemptKeepsInv(w, c, ForFinish(k.revision), r,
                    if r.Err? && (r.error.FinalSequence? || r.error.InvalidEvent? || r.error.VersionConflict?) then k
                        else Retaining(k.handle));
  }

  lemma CompletionIsQuiet(s: Session, result: ProviderResult, now: Time)
    ensures Complete(s, result, now).Ok? ==> Quiet(s, Complete(s, result, now).value)
  {
    if Complete(s, result, now).Ok? {
      QuietTransition(s, Completion(result, now));
    }
  }

  lemma ReadCompleteKeepsInv(w: World, c: nat, now: Time)
    requires Inv(w) && Ready(w, c, ReadComplete(now))
    ensures Inv(ReadCompleteStep(w, c, now))
  {
    var k := w.connections[c];
    var r := Complete(w.row.value, k.result, now);
    CompletionIsQuiet(w.row.value, k.result, now);
    AttemptKeepsInv(w, c, ForComplete, r, Failing(Some(k.handle), "internal_error"));
  }

  lemma ReadFailureKeepsInv(w: World, c: nat)
    requires Inv(w) && Ready(w, c, ReadFailure)
    ensures Inv(ReadFailureStep(w, c))
  {
    var k := w.connections[c];
    if Fail(w.row.value, k.code).Ok? {
      QuietTransition(w.row.value, Failure(k.code));
    }
    AttemptKeepsInv(w, c, ForFailure, Fail(w.row.value, k.code), if k.holding.None? then Done
                    else Closing(k.holding.value));
  }

  // ---------------------------------------------------------------------------
  // Steps on the row
  // ---------------------------------------------------------------------------

  lemma StartKeepsInv(w: World, c: nat, id: string, workspaceId: string, createdBy: string, e: StartEvent, now: Time)
    requires Inv(w) && c !in w.connections
    ensures Inv(StartStep(w, c, id, workspaceId, createdBy, e, now))
  {
    if w.row.Some? {
      MoveKeepsInv(w, c, Done);
    } else {
      match NewSession(id, workspaceId, createdBy, e, now, 0)
      case Err(_) =>
        MoveKeepsInv(w, c, Done);
      case Ok(s) =>
        var v := Put(w, c, Created(s)).(row := Some(s));
        assert forall d :: d in w.connections ==> w.connections[d].Done?;
        assert LeaseInv(v) && KnowledgeInv(v) && AgreeInv(v);
    }
  }

  predicate Succeeds(w: World, c: nat) {
    c in w.connections && w.connections[c].Saving? && w.row.Some? &&
    var k := w.connections[c];
    k.updated.version == k.snapshot.version + 1 && w.row.value.version == k.snapshot.version
  }

  lemma AfterConflictHolds(k: Connection)
    requires k.Saving?
    ensures var next := AfterConflict(k.holding, k.purpose);
            && Held(next) == Held(k) && (Seen(next).Some? ==> Seen(next) == Seen(k))
            && !next.Saving? && !next.Pushing? && !Starter(next) && !next.ResumeFound?
            && (Unsettled(k) ==> Unsettled(next))
  {}

  lemma ConflictKeepsInv(w: World, c: nat, clock: Time)
    requires Inv(w) && Ready(w, c, Save(clock)) && !Succeeds(w, c)
    ensures Inv(SaveStep(w, c, clock))
  {
    var k := w.connections[c];
    AfterConflictHolds(k);
    StepAsideKeepsInv(w, c, AfterConflict(k.holding, k.purpose));
  }

  lemma AfterSaveHolds(entries: seq<Entry>, k: Connection)
    requires k.Saving? && PlaceOk(entries, k) && forall e :: e in entries ==> e.stream.revision >= 0
    ensures PlaceOk(entries, AfterSave(k.holding, k.purpose, k.updated))
  {}

  lemma SaveKeepsLeases(w: World, c: nat, clock: Time)
    requires LeaseInv(w) && Succeeds(w, c)
    ensures LeaseInv(SaveStep(w, c, clock))
  {
    var k, v := w.connections[c], SaveStep(w, c, clock);
    var next := AfterSave(k.holding, k.purpose, k.updated);
    assert PlaceOk(w.entries, k);
    AfterSaveHolds(w.entries, k);
    MoveKeepsLeases(w, c, next);
    SameLeases(Put(w, c, next), v);
  }

  lemma SameLeases(w: World, v: World)
    requires LeaseInv(w) && v.entries == w.entries && v.registered == w.registered && v.connections == w.connections
    ensures LeaseInv(v)
  {}

  /** A successful save outdates every other pending save. */
  lemma OthersOutdated(w: World, c: nat, d: nat, clock: Time)
    requires Succeeds(w, c) && d in w.connections && d != c && KnowsRow(w.row, w.connections[c])
             && KnowsRow(w.row, w.connections[d])
    ensures KnowsRow(Some(Stamped(w.connections[c].updated, clock)), w.connections[d])
  {}

  lemma SaveKeepsKnowledge(w: World, c: nat, clock: Time)
    requires LeaseInv(w) && KnowledgeInv(w) && Succeeds(w, c)
    ensures KnowledgeInv(SaveStep(w, c, clock))
  {
    var k, v := w.connections[c], SaveStep(w, c, clock);
    assert KnowsRow(w.row, k) && PlaceOk(w.entries, k);
    forall d | d in v.connections
      ensures KnowsRow(v.row, v.connections[d])
    {
      if d != c {
        OthersOutdated(w, c, d, clock);
      }
    }
  }

  lemma SaveKeepsRow(w: World, c: nat, clock: Time)
    requires KnowledgeInv(w) && RowInv(w) && Succeeds(w, c)
    ensures RowInv(SaveStep(w, c, clock))
  {
    var k := w.connections[c];
    assert KnowsRow(w.row, k);
    if k.purpose.ForAudio? {
      AudioChangeExtends(w.row.value, k.updated, k.purpose.event, w.frames);
    } else {
      QuietKeepsRow(w.row.value, k.updated, w.frames);
    }
    StampKeepsInv(k.updated, clock, SaveStep(w, c, clock).frames);
  }

  lemma FormatKeepsStep(p: Provider, s: Session, u: Session, frames: seq<AudioEvent>)
    requires InStep(p, s, frames) && SameFormat(s, u)
    ensures InStep(p, u, frames)
  {}

  lemma QuietSaveKeepsAgreement(w: World, c: nat, clock: Time)
    requires KnowledgeInv(w) && AgreeInv(w) && Succeeds(w, c) && !w.connections[c].purpose.ForAudio?
    ensures AgreeInv(SaveStep(w, c, clock))
  {
    var k, v := w.connections[c], SaveStep(w, c, clock);
    assert KnowsRow(w.row, k);
    if Live(v) {
      if Settled(v) {
        forall d | d in w.connections
          ensures !Unsettled(w.connections[d])
        {
          assert !Unsettled(v.connections[d]);
        }
        FormatKeepsStep(w.entries[0].stream, w.row.value, Stamped(k.updated, clock), w.frames);
      }
      forall d | d in v.connections && v.connections[d].Pushing?
        ensures OneBehind(v, v.connections[d].event)
      {
        assert OneBehind(w, w.connections[d].event);
        FormatKeepsStep(w.entries[0].stream, w.row.value, Stamped(k.updated, clock), w.frames[..|w.frames| - 1]);
      }
    }
  }

  lemma OnlyActiveIsSettled(w: World, c: nat)
    requires LeaseInv(w) && c in w.connections && Active(w.connections[c]) && !Unsettled(w.connections[c])
    ensures Settled(w) && forall d :: d in w.connections && d != c ==> !w.connections[d].Pushing?
  {}

  /** The only connection with a lease saves a frame: the stream is now one frame behind the row. */
  lemma AudioSaveKeepsAgreement(w: World, c: nat, clock: Time)
    requires LeaseInv(w) && KnowledgeInv(w) && AgreeInv(w) && Succeeds(w, c) && w.connections[c].purpose.ForAudio?
    ensures AgreeInv(SaveStep(w, c, clock))
  {
    var k, v := w.connections[c], SaveStep(w, c, clock);
    assert KnowsRow(w.row, k);
    OnlyActiveIsSettled(w, c);
    if Live(v) {
      FormatKeepsStep(w.entries[0].stream, w.row.value, Stamped(k.updated, clock), w.frames);
      assert v.frames[..|v.frames| - 1] == w.frames;
      assert OneBehind(v, k.purpose.event) && Unsettled(v.connections[c]);
    }
  }

  lemma SaveKeepsInv(w: World, c: nat, clock: Time)
    requires Inv(w) && Ready(w, c, Save(clock))
    ensures Inv(SaveStep(w, c, clock))
  {
    if !Succeeds(w, c) {
      ConflictKeepsInv(w, c, clock);
    } else {
      SaveKeepsLeases(w, c, clock);
      SaveKeepsKnowledge(w, c, clock);
      if w.connections[c].purpose.ForAudio? {
        AudioSaveKeepsAgreement(w, c, clock);
      } else {
        QuietSaveKeepsAgreement(w, c, clock);
      }
    }
  }

  // ---------------------------------------------------------------------------
  // Steps on the stream
  // ---------------------------------------------------------------------------

  lemma LeaveKeepsInv(w: World, c: nat)
    requires Inv(w) && Ready(w, c, Leave)
    ensures Inv(Next(w, c, Leave))
  {
    assert KnowsRow(w.row, w.connections[c]);
    StepAsideKeepsInv(w, c, Retaining(w.connections[c].handle));
  }

  lemma BreakdownKeepsInv(w: World, c: nat)
    requires Inv(w) && Ready(w, c, Breakdown)
    ensures Inv(Next(w, c, Breakdown))
  {
    assert KnowsRow(w.row, w.connections[c]);
    AfterBreakdownHolds(w.connections[c]);
    StepAsideKeepsInv(w, c, AfterBreakdown(w.connections[c]).value);
  }

  lemma AfterBreakdownHolds(k: Connection)
    requires AfterBreakdown(k).Some?
    ensures var next := AfterBreakdown(k).value;
            && Held(next) == Held(k) && Seen(next).None?
            && !next.Saving? && !next.Pushing? && !Starter(next) && !next.ResumeFound?
            && (Unsettled(k) ==> Unsettled(next) || Held(k).None?)
  {}

  /** The stream opened for a session is well formed and has taken no frame. */
  lemma OpenedStream(s: Session, row: Session)
    requires SameFormat(s, row)
    ensures var stream := OpenStream(s, Fixture(IsChinese(s.language)), IsChinese(s.language));
            stream.Some? ==> StreamOk(FreshEntry(s.expiresAt, stream.value)) && InStep(stream.value, row, [])
  {
    FixturesOk();
  }

  lemma PublishKeepsLeases(w: World, c: nat, e: Entry)
    requires LeaseInv(w) && c in w.connections && Starter(w.connections[c])
    requires StreamOk(e) && e.lease == 1 && e.attached
    ensures w.entries == [] && LeaseInv(Put(w, c, Serving(Handle(0, 1), 0)).(entries := [e], registered := Some(0)))
    ensures forall d :: d in w.connections && d != c ==> !Active(w.connections[d])
  {
    assert PlaceOk(w.entries, w.connections[c]);
    var v := Put(w, c, Serving(Handle(0, 1), 0)).(entries := [e], registered := Some(0));
    forall d | d in v.connections
      ensures PlaceOk(v.entries, v.connections[d]) && (d != c ==> !Active(v.connections[d]))
    {
      if d != c {
        assert PlaceOk(w.entries, w.connections[d]);
      }
    }
  }

  lemma PublishKeepsKnowledge(w: World, c: nat, e: Entry)
    requires KnowledgeInv(w) && w.row.Some?
    ensures KnowledgeInv(Put(w, c, Serving(Handle(0, 1), 0)).(entries := [e], registered := Some(0)))
  {}

  /** The first stream of a session: nobody can be holding a lease yet. */
  lemma PublishKeepsInv(w: World, c: nat, e: Entry)
    requires Inv(w) && c in w.connections && Starter(w.connections[c]) && w.row.Some?
    requires StreamOk(e) && e.lease == 1 && e.attached && InStep(e.stream, w.row.value, [])
    ensures w.entries == [] && Inv(Put(w, c, Serving(Handle(0, 1), 0)).(entries := [e], registered := Some(0)))
  {
    PublishKeepsLeases(w, c, e);
    PublishKeepsKnowledge(w, c, e);
  }

  lemma OpenKeepsInv(w: World, c: nat, now: Time, openFails: bool)
    requires Inv(w) && Ready(w, c, Open(now, openFails))
    ensures Inv(OpenStep(w, c, now, openFails))
  {
    var v, s := OpenStep(w, c, now, openFails), w.connections[c].session;
    assert PlaceOk(w.entries, w.connections[c]) && KnowsRow(w.row, w.connections[c]);
    if v.entries == w.entries {
      StepAsideKeepsInv(w, c, Failing(None, NO_STREAM));
    } else {
      OpenedStream(s, w.row.value);
      PublishKeepsInv(w, c, v.entries[0]);
    }
  }

  ghost predicate NobodyHolds(w: World) {
    forall d :: d in w.connections ==> !Active(w.connections[d])
  }

  /** Replacing the state of the stream keeps the leases if its number stays and it stays attached
      to its holder, or if nobody holds it. */
  lemma EntryChangeKeepsLeases(w: World, e: Entry)
    requires LeaseInv(w) && w.entries != [] && StreamOk(e)
    requires NobodyHolds(w) || (e.lease == w.entries[0].lease && e.stream.revision >= w.entries[0].stream.revision)
    requires NobodyHolds(w) || e.closed || (e.attached && !w.entries[0].closed)
    ensures LeaseInv(w.(entries := [e]))
  {
    var v := w.(entries := [e]);
    forall d | d in v.connections
      ensures PlaceOk(v.entries, v.connections[d])
    {
      assert PlaceOk(w.entries, w.connections[d]);
    }
  }

  /** ... and the whole invariant if besides it closes the stream or leaves the provider alone. */
  lemma EntryChangeKeepsInv(w: World, e: Entry)
    requires Inv(w) && w.entries != [] && StreamOk(e)
    requires NobodyHolds(w) || (e.lease == w.entries[0].lease && e.stream.revision >= w.entries[0].stream.revision)
    requires NobodyHolds(w) || e.closed || (e.attached && !w.entries[0].closed)
    requires e.closed || (!w.entries[0].closed && e.stream == w.entries[0].stream)
    ensures Inv(w.(entries := [e]))
  {
    var v := w.(entries := [e]);
    EntryChangeKeepsLeases(w, e);
    forall d | Live(v) && d in v.connections && v.connections[d].Pushing?
      ensures OneBehind(v, v.connections[d].event)
    {
      assert OneBehind(w, w.connections[d].event);
    }
  }

  lemma DetachedHasNoHolder(w: World)
    requires LeaseInv(w) && w.entries != [] && !w.entries[0].closed && !w.entries[0].attached
    ensures NobodyHolds(w)
  {
    forall d | d in w.connections
      ensures !Active(w.connections[d])
    {
      assert PlaceOk(w.entries, w.connections[d]);
    }
  }

  lemma GrantKeepsLeases(w: World, c: nat, k: Connection)
    requires LeaseInv(w) && c in w.connections && NobodyHolds(w)
    requires k.Leased? && PlaceOk(w.entries, k)
    ensures LeaseInv(Put(w, c, k))
  {}

  /** A connection may take the current lease when nobody holds it. */
  lemma GrantKeepsInv(w: World, c: nat, k: Connection)
    requires Inv(w) && c in w.connections && NobodyHolds(w) && w.row.Some?
    requires k.Leased? && PlaceOk(w.entries, k)
    ensures Inv(Put(w, c, k))
  {
    GrantKeepsLeases(w, c, k);
    assert Settled(w);
  }

  /** Reattaching: the lease number goes up and the connection takes it. */
  lemma TakeLeaseKeepsInv(w: World, c: nat, e: Entry, k: Connection)
    requires Inv(w) && c in w.connections && w.row.Some? && w.entries != [] && !w.entries[0].closed
             && !w.entries[0].attached
    requires StreamOk(e) && e.attached && !e.closed && e.stream == w.entries[0].stream
    requires k.Leased? && k.handle == Handle(0, e.lease)
    ensures Inv(Put(w, c, k).(entries := [e]))
  {
    DetachedHasNoHolder(w);
    EntryChangeKeepsInv(w, e);
    GrantKeepsInv(w.(entries := [e]), c, k);
    assert Put(w.(entries := [e]), c, k) == Put(w, c, k).(entries := [e]);
  }

  lemma ReattachKeepsInv(w: World, c: nat, now: Time)
    requires Inv(w) && Ready(w, c, Reattach(now))
    ensures Inv(ReattachStep(w, c, now))
  {
    var k := w.connections[c];
    assert KnowsRow(w.row, k);
    match ResumeEntry(w.entries[k.entry], now)
    case Err(_) =>
      StepAsideKeepsInv(w, c, Failing(None, "stream_timeout"));
    case Ok(e) =>
      TakeLeaseKeepsInv(w, c, e, Leased(Handle(0, e.lease), k.current, k.resume));
      assert w.entries[k.entry := e] == [e];
  }

  /** Pushing the frame just saved: the provider takes it, the update passes the controller's
      checks, and row and stream agree again. */
  lemma PushTakesFrame(w: World, c: nat)
    requires Inv(w) && RowInv(w) && Ready(w, c, SendFrame(false)) && !w.entries[w.connections[c].handle.entry].closed
             && !w.entries[w.connections[c].handle.entry].ended
    ensures var k := w.connections[c];
            && k.handle.entry == 0 && |w.entries| == 1 && Live(w)
            && var r := PushEntry(w.entries[0], k.handle.lease, k.event, false);
            && r.Ok?
            && StreamOk(r.value.0) && InStep(r.value.0.stream, w.row.value, w.frames)
            && r.value.0 == w.entries[0].(stream := r.value.0.stream)
            && k.revision <= r.value.0.stream.revision
            && r.value.0.stream.revision >= w.entries[0].stream.revision
            && (r.value.1.Some? ==> ValidUpdate(r.value.1.value, k.revision, k.event, w.row.value.frameDurationMs)
                                    && r.value.1.value.revision == r.value.0.stream.revision)
  {
    var k := w.connections[c];
    assert PlaceOk(w.entries, k);
    assert OneBehind(w, k.event);
    var before := w.frames[..|w.frames| - 1];
    assert before + [k.event] == w.frames;
    AcceptedFrameIsPushed(w.entries[0].stream, w.row.value, before, k.event, k.revision);
    PushEntryFacts(w.entries[0], k.handle.lease, k.event);
  }

  lemma PushEntryFacts(e: Entry, lease: nat, f: AudioEvent)
    requires StreamOk(e) && Usable(e, lease) && !e.ended && Push(e.stream, f, false).Ok?
    ensures PushEntry(e, lease, f, false)
            == Ok((e.(stream := Push(e.stream, f, false).value.0), Push(e.stream, f, false).value.1))
    ensures StreamOk(e.(stream := Push(e.stream, f, false).value.0))
            && Push(e.stream, f, false).value.0.revision >= e.stream.revision
  {}

  lemma SettleKeepsLeases(w: World, c: nat, e: Entry, k: Connection)
    requires LeaseInv(w) && c in w.connections && w.connections[c].Pushing? && w.entries != []
    requires StreamOk(e) && e.lease == w.entries[0].lease && e.attached && !w.entries[0].closed
    requires e.stream.revision >= w.entries[0].stream.revision
    requires k.Serving? && Held(k) == Held(w.connections[c]) && k.revision <= e.stream.revision
    ensures LeaseInv(Put(w, c, k).(entries := [e]))
  {
    EntryChangeKeepsLeases(w, e);
    var u := w.(entries := [e]);
    assert PlaceOk(u.entries, u.connections[c]);
    MoveKeepsLeases(u, c, k);
    SameLeases(Put(u, c, k), Put(w, c, k).(entries := [e]));
  }

  /** The connection that was one frame ahead catches up. */
  lemma SettleKeepsInv(w: World, c: nat, e: Entry, k: Connection)
    requires Inv(w) && c in w.connections && w.connections[c].Pushing? && w.row.Some? && w.entries != []
    requires StreamOk(e) && e.lease == w.entries[0].lease && e.attached && !w.entries[0].closed
    requires e.stream.revision >= w.entries[0].stream.revision && InStep(e.stream, w.row.value, w.frames)
    requires k.Serving? && Held(k) == Held(w.connections[c]) && k.revision <= e.stream.revision
    ensures Inv(Put(w, c, k).(entries := [e]))
  {
    SettleKeepsLeases(w, c, e, k);
  }

  /** Only a live stream takes frames. */
  lemma RefusedPushKeepsInv(w: World, c: nat)
    requires Inv(w) && Ready(w, c, SendFrame(false))
    ensures Inv(Put(w, c, Failing(Some(w.connections[c].handle), NO_STREAM)))
  {
    StepAsideKeepsInv(w, c, Failing(Some(w.connections[c].handle), NO_STREAM));
  }

  lemma TakenPushKeepsInv(w: World, c: nat)
    requires Inv(w) && RowInv(w) && Ready(w, c, SendFrame(false)) && !w.entries[w.connections[c].handle.entry].closed
             && !w.entries[w.connections[c].handle.entry].ended
    ensures PushStep(w, c, false).connections[c].Serving? && Inv(PushStep(w, c, false))
  {
    var k := w.connections[c];
    PushTakesFrame(w, c);
    var r := PushEntry(w.entries[0], k.handle.lease, k.event, false).value;
    var next := Serving(k.handle, if r.1.None? then k.revision else r.1.value.revision);
    SettleKeepsInv(w, c, r.0, next);
    assert w.entries[0 := r.0] == [r.0];
  }

  lemma SendFrameKeepsInv(w: World, c: nat, canceled: bool)
    requires Inv(w) && RowInv(w) && Ready(w, c, SendFrame(canceled))
    ensures Inv(PushStep(w, c, canceled))
  {
    var k := w.connections[c];
    if PushEntry(w.entries[k.handle.entry], k.handle.lease, k.event, canceled).Err? {
      RefusedPushKeepsInv(w, c);
    } else {
      TakenPushKeepsInv(w, c);
    }
  }

  /** Closing the stream, then moving on. */
  lemma ShutKeepsInv(w: World, c: nat, e: Entry, k: Connection)
    requires Inv(w) && c in w.connections && Active(w.connections[c]) && w.row.Some? && w.entries != []
    requires StreamOk(e) && e.lease == w.entries[0].lease && e.closed
             && e.stream.revision == w.entries[0].stream.revision
    requires (Held(k) == Held(w.connections[c]) || Held(k) == None) && Seen(k).None?
    requires !k.Saving? && !k.Pushing? && !Starter(k) && !k.ResumeFound?
    ensures Inv(Put(w, c, k).(entries := [e]))
  {
    EntryChangeKeepsInv(w, e);
    var u := w.(entries := [e]);
    assert PlaceOk(u.entries, u.connections[c]);
    MoveKeepsInv(u, c, k);
    assert Put(u, c, k) == Put(w, c, k).(entries := [e]);
  }

  lemma AfterFinishHolds(h: Handle, failure: Option<StreamError>, result: ProviderResult)
    ensures var next := AfterFinish(h, failure, result);
            && Held(next) == Some(h) && Seen(next).None? && !next.Saving? && !next.Pushing? && !Starter(next)
               && !next.ResumeFound?
  {}

  lemma FinishedEntry(e: Entry, lease: nat, canceled: bool)
    requires StreamOk(e) && FinishEntry(e, lease, canceled).Ok?
    ensures var f := FinishEntry(e, lease, canceled).value.0;
            StreamOk(f) && f.lease == e.lease && f.closed && f.stream.revision == e.stream.revision
  {}

  lemma FinishKeepsInv(w: World, c: nat, canceled: bool, result: ProviderResult)
    requires Inv(w) && Ready(w, c, FinishLease(canceled, result))
    ensures Inv(FinishStep(w, c, canceled, result))
  {
    var h := w.connections[c].handle;
    assert KnowsRow(w.row, w.connections[c]);
    match FinishEntry(w.entries[h.entry], h.lease, canceled)
    case Err(_) =>
      StepAsideKeepsInv(w, c, Failing(Some(h), NO_STREAM));
    case Ok((e, failure)) =>
      FinishedEntry(w.entries[0], h.lease, canceled);
      AfterFinishHolds(h, failure, result);
      ShutKeepsInv(w, c, e, AfterFinish(h, failure, result));
      assert w.entries[h.entry := e] == [e];
  }

  lemma ClosedEntry(e: Entry, lease: nat)
    requires StreamOk(e) && CloseEntry(e, lease).Ok?
    ensures var f := CloseEntry(e, lease).value;
            StreamOk(f) && f.lease == e.lease && f.closed && f.stream.revision == e.stream.revision
  {}

  /** A lease that is current and yet refused belongs to a stream already closed. */
  lemma LateCloseKeepsInv(w: World, c: nat)
    requires Inv(w) && Ready(w, c, CloseLease)
    requires CloseEntry(w.entries[w.connections[c].handle.entry], w.connections[c].handle.lease).Err?
    ensures Inv(Put(w, c, Done))
  {
    assert PlaceOk(w.entries, w.connections[c]) && KnowsRow(w.row, w.connections[c]);
    MoveKeepsInv(w, c, Done);
  }

  lemma TimelyCloseKeepsInv(w: World, c: nat)
    requires Inv(w) && Ready(w, c, CloseLease)
    requires w.connections[c].handle.entry == 0 && CloseEntry(w.entries[0], w.connections[c].handle.lease).Ok?
    ensures Inv(Put(w, c, Done).(entries := [CloseEntry(w.entries[0], w.connections[c].handle.lease).value]))
  {
    var lease := w.connections[c].handle.lease;
    assert KnowsRow(w.row, w.connections[c]);
    ClosedEntry(w.entries[0], lease);
    ShutKeepsInv(w, c, CloseEntry(w.entries[0], lease).value, Done);
  }

  lemma CloseKeepsInv(w: World, c: nat)
    requires Inv(w) && Ready(w, c, CloseLease)
    ensures Inv(CloseStep(w, c))
  {
    var h := w.connections[c].handle;
    var r := CloseEntry(w.entries[h.entry], h.lease);
    if r.Err? {
      LateCloseKeepsInv(w, c);
    } else {
      TimelyCloseKeepsInv(w, c);
      assert w.entries[h.entry := r.value] == [r.value];
    }
  }

  /** Detaching: the connection lets go, then the stream is nobody's. */
  lemma LetGoKeepsInv(w: World, c: nat, e: Entry)
    requires Inv(w) && c in w.connections && w.connections[c].Detaching? && w.row.Some? && w.entries != []
             && !w.entries[0].closed
    requires StreamOk(e) && !e.closed && e.stream == w.entries[0].stream
    ensures Inv(Put(w, c, Done).(entries := [e]))
  {
    MoveKeepsInv(w, c, Done);
    assert NobodyHolds(Put(w, c, Done));
    EntryChangeKeepsInv(Put(w, c, Done), e);
  }

  lemma DetachKeepsInv(w: World, c: nat)
    requires Inv(w) && Ready(w, c, DetachLease)
    ensures Inv(DetachStep(w, c))
  {
    var k := w.connections[c];
    assert KnowsRow(w.row, k);
    if k.reconnectBy.None? || DetachEntry(w.entries[k.handle.entry], k.handle.lease, k.reconnectBy.value).Err? {
      StepAsideKeepsInv(w, c, Closing(k.handle));
    } else {
      var e := DetachEntry(w.entries[k.handle.entry], k.handle.lease, k.reconnectBy.value).value;
      LetGoKeepsInv(w, c, e);
      assert w.entries[k.handle.entry := e] == [e];
    }
  }

  lemma ReapedEntry(e: Entry, now: Time)
    requires StreamOk(e)
    ensures var r := ReapEntry(e, now);
            && StreamOk(r) && r.lease == e.lease && r.stream.revision == e.stream.revision
            && (r == e || r.closed)
  {}

  lemma BehindKeepsInv(w: World, i: nat, b: Background)
    requires Inv(w) && i < |w.entries|
    ensures Inv(Behind(w, i, b))
  {
    if !w.entries[0].closed && !w.entries[0].attached {
      DetachedHasNoHolder(w);
    }
    match b
    case DropClosed =>
    case EndLifetime =>
      var e := w.entries[0].(ended := true);
      EntryChangeKeepsInv(w, e);
      assert w.entries[i := e] == [e];
    case ReapStream(now) =>
      var e := ReapEntry(w.entries[0], now);
      ReapedEntry(w.entries[0], now);
      EntryChangeKeepsInv(w, e);
      assert w.entries[i := e] == [e];
  }

  // ---------------------------------------------------------------------------
  // Runs
  // ---------------------------------------------------------------------------

  predicate ReadsRow(a: Action) {
    a.ReadForResume? || a.ReadResume? || a.ReadAudio? || a.RetryAudio? || a.ReadInterrupt? || a.ReadFinish?
        || a.ReadComplete? || a.ReadFailure?
  }

  lemma ReadKeepsInv(w: World, c: nat, a: Action)
    requires Inv(w) && Ready(w, c, a) && ReadsRow(a)
    ensures Inv(Next(w, c, a))
  {
    match a
    case ReadForResume(e) => ReadForResumeKeepsInv(w, c, e);
    case ReadResume(now) => ReadResumeKeepsInv(w, c, now);
    case ReadAudio(e, now) => ReadAudioKeepsInv(w, c, w.connections[c].handle, w.connections[c].revision, e, 0, now);
    case RetryAudio(now) =>
      var k := w.connections[c];
      ReadAudioKeepsInv(w, c, k.handle, k.revision, k.event, k.attempt, now);
    case ReadInterrupt(now) => ReadInterruptKeepsInv(w, c, now);
    case ReadFinish(e, now) => ReadFinishKeepsInv(w, c, e, now);
    case ReadComplete(now) => ReadCompleteKeepsInv(w, c, now);
    case ReadFailure => ReadFailureKeepsInv(w, c);
  }

  /** Steps that reach the retained stream. */
  predicate StreamAction(a: Action) {
    a.Open? || a.Reattach? || a.SendFrame? || a.DetachLease? || a.FinishLease? || a.CloseLease?
  }

  lemma StreamActionKeepsInv(w: World, c: nat, a: Action)
    requires Inv(w) && RowInv(w) && Ready(w, c, a) && StreamAction(a)
    ensures Inv(Next(w, c, a))
  {
    match a
    case Open(now, openFails) => OpenKeepsInv(w, c, now, openFails);
    case Reattach(now) => ReattachKeepsInv(w, c, now);
    case SendFrame(canceled) => SendFrameKeepsInv(w, c, canceled);
    case DetachLease => DetachKeepsInv(w, c);
    case FinishLease(canceled, result) => FinishKeepsInv(w, c, canceled, result);
    case CloseLease => CloseKeepsInv(w, c);
  }

  lemma NextKeepsInv(w: World, c: nat, a: Action)
    requires Inv(w) && RowInv(w) && Ready(w, c, a)
    ensures Inv(Next(w, c, a))
  {
    if StreamAction(a) {
      StreamActionKeepsInv(w, c, a);
    } else {
      match a
      case Start(id, workspaceId, createdBy, e, now) => StartKeepsInv(w, c, id, workspaceId, createdBy, e, now);
      case LookUp => LookUpKeepsInv(w, c);
      case FindStream => FindStreamKeepsInv(w, c);
      case Save(clock) => SaveKeepsInv(w, c, clock);
      case Leave => LeaveKeepsInv(w, c);
      case Breakdown => BreakdownKeepsInv(w, c);
      case _ => ReadKeepsInv(w, c, a);
    }
  }

  /** Only Start and Save write the row. */
  lemma OthersKeepRow(w: World, c: nat, a: Action)
    requires Ready(w, c, a) && !a.Start? && !a.Save?
    ensures Next(w, c, a).row == w.row && Next(w, c, a).frames == w.frames
  {}

  lemma NextKeepsRow(w: World, c: nat, a: Action)
    requires Inv(w) && RowInv(w) && Ready(w, c, a)
    ensures RowInv(Next(w, c, a))
  {
    match a
    case Start(id, workspaceId, createdBy, e, now) =>
      StartKeepsRow(w, c, id, workspaceId, createdBy, e, now);
    case Save(clock) =>
      if Succeeds(w, c) {
        SaveKeepsRow(w, c, clock);
      }
    case _ =>
      OthersKeepRow(w, c, a);
  }

  lemma StartKeepsRow(w: World, c: nat, id: string, workspaceId: string, createdBy: string, e: StartEvent, now: Time)
    requires KnowledgeInv(w) && RowInv(w)
    ensures RowInv(StartStep(w, c, id, workspaceId, createdBy, e, now))
  {
    if w.row.None? && NewSession(id, workspaceId, createdBy, e, now, 0).Ok? {
      FreshSessionInv(id, workspaceId, createdBy, e, now, 0);
    }
  }

  /** One step of the system: an action of a connection, or something behind its back. */
  datatype Happening = Acts(connection: nat, action: Action) | Passes(entry: nat, background: Background)

  predicate Possible(w: World, x: Happening) {
    match x
    case Acts(c, a) => Ready(w, c, a)
    case Passes(i, _) => i < |w.entries|
  }

  function Then(w: World, x: Happening): World
    requires Possible(w, x)
  {
    match x
    case Acts(c, a) => Next(w, c, a)
    case Passes(i, b) => Behind(w, i, b)
  }

  predicate IsRun(w: World, run: seq<Happening>)
    decreases |run|
  {
    run == [] || (Possible(w, run[0]) && IsRun(Then(w, run[0]), run[1..]))
  }

  function Run(w: World, run: seq<Happening>): World
    requires IsRun(w, run)
    decreases |run|
  {
    if run == [] then w else Run(Then(w, run[0]), run[1..])
  }

  ghost predicate Reachable(w: World) {
    exists run :: IsRun(EMPTY_WORLD, run) && Run(EMPTY_WORLD, run) == w
  }

  lemma {:induction false} RunKeepsInv(w: World, run: seq<Happening>)
    requires Inv(w) && RowInv(w) && IsRun(w, run)
    ensures Inv(Run(w, run)) && RowInv(Run(w, run))
    decreases |run|
  {
    if run != [] {
      match run[0] {
        case Acts(c, a) =>
          NextKeepsInv(w, c, a);
          NextKeepsRow(w, c, a);
        case Passes(i, b) => BehindKeepsInv(w, i, b);
      }
      RunKeepsInv(Then(w, run[0]), run[1..]);
    }
  }

  lemma ReachableInv(w: World)
    requires Reachable(w)
    ensures Inv(w) && RowInv(w)
  {
    var run :| IsRun(EMPTY_WORLD, run) && Run(EMPTY_WORLD, run) == w;
    RunKeepsInv(EMPTY_WORLD, run);
  }

  // ---------------------------------------------------------------------------
  // What the protocol promises
  // ---------------------------------------------------------------------------

  /** Nobody is between saving a frame and pushing it, or about to close the stream. */
  predicate AtRest(w: World) {
    && Live(w)
    && ((exists c :: c in w.connections && Active(w.connections[c]) && !Unsettled(w.connections[c]))
        || !w.entries[0].attached)
  }

  lemma RestSettles(w: World)
    requires LeaseInv(w) && AtRest(w)
    ensures Settled(w)
  {
    if !w.entries[0].attached {
      DetachedHasNoHolder(w);
    }
  }

  /** Whenever an open stream is at rest, in particular whenever a connection is waiting for the
      next event and whenever the stream is detached and waiting for a reconnect, the provider has
      taken exactly the frames the row has counted, in order: none lost, none pushed twice,
      whatever disconnects and resumes happened. */
  lemma RowAndStreamAgree(w: World)
    requires Reachable(w) && AtRest(w)
    ensures var p := w.entries[0].stream;
            && p.pushed == w.frames && p.nextSequence == w.row.value.nextSequence == |p.pushed|
            && ByteSum(p.pushed) == w.row.value.receivedBytes
            && InOrder(p.pushed)
  {
    ReachableInv(w);
    RestSettles(w);
  }

  lemma PushingIsReady(w: World, c: nat)
    requires LeaseInv(w) && KnowledgeInv(w) && c in w.connections && w.connections[c].Pushing?
    ensures Ready(w, c, SendFrame(false))
  {
    assert KnowsRow(w.row, w.connections[c]) && PlaceOk(w.entries, w.connections[c]);
  }

  /** A frame the row has counted is always taken when its connection pushes it to a stream that
      is still open, and its update always passes the controller's checks: the connection keeps
      serving and row and stream agree again. */
  lemma AcceptedFramesReachTheProvider(w: World, c: nat)
    requires Reachable(w) && c in w.connections && w.connections[c].Pushing?
    ensures Ready(w, c, SendFrame(false))
    ensures var k := w.connections[c];
            var e := w.entries[k.handle.entry];
            PushStep(w, c, false).connections[c].Serving? <==> !e.closed && !e.ended
  {
    ReachableInv(w);
    PushingIsReady(w, c);
    var k := w.connections[c];
    if !w.entries[k.handle.entry].closed && !w.entries[k.handle.entry].ended {
      TakenPushKeepsInv(w, c);
    }
  }

  /** At every moment at most one connection holds a lease on the session's stream, and the lease
      it holds is the current one. */
  lemma OneHolderAtATime(w: World, a: nat, b: nat)
    requires Reachable(w) && a in w.connections && b in w.connections && Active(w.connections[a])
             && Active(w.connections[b])
    ensures a == b
    ensures var h := Held(w.connections[a]).value; h.entry < |w.entries| && h.lease == w.entries[h.entry].lease
  {
    ReachableInv(w);
    assert PlaceOk(w.entries, w.connections[a]);
  }

  /** The controller's branch for a counted frame whose payload does not decode is never taken. */
  lemma SavedFramesDecode(w: World, c: nat)
    requires Reachable(w) && c in w.connections && w.connections[c].Saving? && w.connections[c].purpose.ForAudio?
    ensures w.connections[c].purpose.event.pcm.Some? && w.connections[c].holding.Some?
  {
    ReachableInv(w);
    assert KnowsRow(w.row, w.connections[c]);
  }

  // ---------------------------------------------------------------------------
  // No stream is left behind
  // ---------------------------------------------------------------------------

  /** Between finishing the stream and saving its result. */
  predicate Finishing(k: Connection) { k.Completing? || (k.Saving? && k.holding.Some? && k.purpose.ForComplete?) }

  predicate Attached(w: World) { w.entries != [] && !w.entries[0].closed && w.entries[0].attached }

  ghost predicate HeldInv(w: World) {
    && (forall c :: c in w.connections && Finishing(w.connections[c]) ==> !Attached(w))
    && (Attached(w) ==> exists c :: c in w.connections && Active(w.connections[c]))
  }

  /** A connection may move on with its lease, or without it once the stream is not attached. */
  lemma MoveKeepsHeld(w: World, v: World, c: nat)
    requires HeldInv(w) && c in v.connections && v.connections == w.connections[c := v.connections[c]]
    requires Attached(v) ==> Attached(w) && !Finishing(v.connections[c])
    requires Attached(v) && c in w.connections && Active(w.connections[c]) ==> Active(v.connections[c])
    ensures HeldInv(v)
  {
    if Attached(v) {
      var d :| d in w.connections && Active(w.connections[d]);
      assert d in v.connections && Active(v.connections[d]);
    }
  }

  lemma TakeKeepsHeld(w: World, v: World, c: nat)
    requires HeldInv(w) && c in v.connections && v.connections == w.connections[c := v.connections[c]]
    requires Active(v.connections[c])
    requires forall d :: d in v.connections ==> !Finishing(v.connections[d])
    ensures HeldInv(v)
  {}

  lemma SaveKeepsHeld(w: World, c: nat, clock: Time)
    requires LeaseInv(w) && HeldInv(w) && Ready(w, c, Save(clock))
    ensures HeldInv(SaveStep(w, c, clock))
  {
    MoveKeepsHeld(w, SaveStep(w, c, clock), c);
  }

  lemma OpenKeepsHeld(w: World, c: nat, now: Time, openFails: bool)
    requires LeaseInv(w) && HeldInv(w) && Ready(w, c, Open(now, openFails))
    ensures HeldInv(OpenStep(w, c, now, openFails))
  {
    var v := OpenStep(w, c, now, openFails);
    assert PlaceOk(w.entries, w.connections[c]);
    if v.entries == w.entries {
      MoveKeepsHeld(w, v, c);
    } else {
      forall d | d in w.connections
        ensures !Active(w.connections[d])
      {
        assert PlaceOk(w.entries, w.connections[d]);
      }
      TakeKeepsHeld(w, v, c);
    }
  }

  lemma ReattachKeepsHeld(w: World, c: nat, now: Time)
    requires LeaseInv(w) && HeldInv(w) && Ready(w, c, Reattach(now))
    ensures HeldInv(ReattachStep(w, c, now))
  {
    var v := ReattachStep(w, c, now);
    if ResumeEntry(w.entries[0], now).Ok? {
      DetachedHasNoHolder(w);
      TakeKeepsHeld(w, v, c);
    } else {
      MoveKeepsHeld(w, v, c);
    }
  }

  lemma CloseKeepsHeld(w: World, c: nat)
    requires LeaseInv(w) && HeldInv(w) && Ready(w, c, CloseLease)
    ensures HeldInv(CloseStep(w, c))
  {
    assert PlaceOk(w.entries, w.connections[c]);
    MoveKeepsHeld(w, CloseStep(w, c), c);
  }

  lemma SendFrameKeepsHeld(w: World, c: nat, canceled: bool)
    requires LeaseInv(w) && HeldInv(w) && Ready(w, c, SendFrame(canceled))
    ensures HeldInv(PushStep(w, c, canceled))
  {
    MoveKeepsHeld(w, PushStep(w, c, canceled), c);
  }

  lemma DetachKeepsHeld(w: World, c: nat)
    requires LeaseInv(w) && HeldInv(w) && Ready(w, c, DetachLease)
    ensures HeldInv(DetachStep(w, c))
  {
    MoveKeepsHeld(w, DetachStep(w, c), c);
  }

  lemma FinishKeepsHeld(w: World, c: nat, canceled: bool, result: ProviderResult)
    requires LeaseInv(w) && HeldInv(w) && Ready(w, c, FinishLease(canceled, result))
    ensures HeldInv(FinishStep(w, c, canceled, result))
  {
    assert PlaceOk(w.entries, w.connections[c]);
    var h := w.connections[c].handle;
    var r := FinishEntry(w.entries[h.entry], h.lease, canceled);
    if r.Ok? {
      AfterFinishHolds(h, r.value.1, result);
    }
    MoveKeepsHeld(w, FinishStep(w, c, canceled, result), c);
  }

  /** The remaining steps leave the stream alone and do not drop a lease. */
  lemma PlainStep(w: World, c: nat, a: Action)
    requires Ready(w, c, a)
    requires !StreamAction(a) && !a.Save?
    ensures var v := Next(w, c, a);
            && v.entries == w.entries && c in v.connections && v.connections == w.connections[c := v.connections[c]]
            && (c in w.connections && Active(w.connections[c]) ==> Active(v.connections[c]))
            && (Finishing(v.connections[c]) ==> c in w.connections && Finishing(w.connections[c]))
  {}

  lemma StreamActionKeepsHeld(w: World, c: nat, a: Action)
    requires LeaseInv(w) && HeldInv(w) && Ready(w, c, a) && StreamAction(a)
    ensures HeldInv(Next(w, c, a))
  {
    match a
    case Open(now, openFails) => OpenKeepsHeld(w, c, now, openFails);
    case Reattach(now) => ReattachKeepsHeld(w, c, now);
    case SendFrame(canceled) => SendFrameKeepsHeld(w, c, canceled);
    case DetachLease => DetachKeepsHeld(w, c);
    case FinishLease(canceled, result) => FinishKeepsHeld(w, c, canceled, result);
    case CloseLease => CloseKeepsHeld(w, c);
  }

  lemma NextKeepsHeld(w: World, c: nat, a: Action)
    requires LeaseInv(w) && HeldInv(w) && Ready(w, c, a)
    ensures HeldInv(Next(w, c, a))
  {
    if StreamAction(a) {
      StreamActionKeepsHeld(w, c, a);
    } else if a.Save? {
      SaveKeepsHeld(w, c, a.clock);
    } else {
      PlainStep(w, c, a);
      MoveKeepsHeld(w, Next(w, c, a), c);
    }
  }

  lemma BehindKeepsHeld(w: World, i: nat, b: Background)
    requires LeaseInv(w) && HeldInv(w) && i < |w.entries|
    ensures HeldInv(Behind(w, i, b))
  {}

  lemma {:induction false} RunKeepsHeld(w: World, run: seq<Happening>)
    requires Inv(w) && RowInv(w) && HeldInv(w) && IsRun(w, run)
    ensures HeldInv(Run(w, run))
    decreases |run|
  {
    if run != [] {
      match run[0] {
        case Acts(c, a) =>
          NextKeepsInv(w, c, a);
          NextKeepsRow(w, c, a);
          NextKeepsHeld(w, c, a);
        case Passes(i, b) =>
          BehindKeepsInv(w, i, b);
          BehindKeepsHeld(w, i, b);
      }
      RunKeepsHeld(Then(w, run[0]), run[1..]);
    }
  }

  /** An open stream is either detached or attached to a connection that is still going to detach,
      finish or close it: no step drops a lease without giving the stream up. */
  lemma NoStreamLeftBehind(w: World)
    requires Reachable(w) && Live(w)
    ensures w.entries[0].attached <==> exists c :: c in w.connections && Active(w.connections[c])
  {
    ReachableInv(w);
    var run :| IsRun(EMPTY_WORLD, run) && Run(EMPTY_WORLD, run) == w;
    RunKeepsHeld(EMPTY_WORLD, run);
    if !w.entries[0].attached {
      DetachedHasNoHolder(w);
    }
  }

  lemma FoundStream(w: World, c: nat)
    requires Reachable(w) && c in w.connections && w.connections[c].ResumeFound?
    ensures w.row.Some? && |w.entries| == 1 && w.connections[c].entry == 0
  {
    ReachableInv(w);
    assert PlaceOk(w.entries, w.connections[c]) && KnowsRow(w.row, w.connections[c]);
  }

  /** A resume that has found the stream gets its lease exactly when the stream is open and in
      time and the connection that used it has let go of it; until then it fails the session.
      The row turns to interrupted, which is what lets a client ask for a resume, before the old
      connection lets go, so a client that is quick enough meets the failing case. */
  lemma ResumeSucceedsIffLetGo(w: World, c: nat, now: Time)
    requires Reachable(w) && Ready(w, c, Reattach(now))
    ensures var e := w.entries[w.connections[c].entry];
            ReattachStep(w, c, now).connections[c].Leased? <==>
              && !e.closed && !e.ended && now < e.expiresAt && (e.reconnectBy == ZERO_TIME || now <= e.reconnectBy)
              && forall d :: d in w.connections ==> !Active(w.connections[d])
    ensures !ReattachStep(w, c, now).connections[c].Leased? ==>
            ReattachStep(w, c, now).connections[c] == Failing(None, "stream_timeout")
  {
    FoundStream(w, c);
    if !w.entries[0].closed {
      NoStreamLeftBehind(w);
    }
  }
}
