/** The controller loop of internal/realtime/controller.go as a state machine: any number of
    connections of one recording session, each at its own program point, sharing the session row
    and the hub's managed stream. Every database statement, every locked section of the hub and
    every clock reading is one step, and steps of different connections interleave freely. */
module RealtimeProtocol {
  import opened Common
  import opened RealtimeSession
  import opened RealtimeProvider
  import opened RealtimeHub

  /** What a pending save is for, with what the connection needs to know when it is decided. */
  datatype Purpose =
    | ForAudio(revision: int, event: AudioEvent, attempt: nat)
    | ForResume(release: Option<Time>)
    | ForInterrupt
    | ForFinish(revision: int)
    | ForComplete
    | ForFailure

  /** The program point of one connection. A Handle in it is the lease the connection holds. */
  datatype Connection =
    | Created(session: Session)
    | Checked(session: Session)
    | ResumeRead(current: Session, resume: ResumeEvent)
    | ResumeFound(current: Session, resume: ResumeEvent, entry: nat)
    | Leased(handle: Handle, current: Session, resume: ResumeEvent)
    | Serving(handle: Handle, revision: int)
    | Retrying(handle: Handle, revision: int, event: AudioEvent, attempt: nat)
    | Saving(holding: Option<Handle>, purpose: Purpose, snapshot: Session, updated: Session)
    | Pushing(handle: Handle, revision: int, event: AudioEvent)
    | Retaining(handle: Handle)
    | Detaching(handle: Handle, reconnectBy: Option<Time>)
    | Finalized(handle: Handle)
    | Completing(handle: Handle, result: ProviderResult)
    | Failing(holding: Option<Handle>, code: string)
    | Closing(handle: Handle)
    | Done

  /** The lease a connection holds, if any. */
  function Held(c: Connection): Option<Handle> {
    match c
    case Leased(h, _, _) => Some(h)
    case Serving(h, _) => Some(h)
    case Retrying(h, _, _, _) => Some(h)
    case Saving(h, _, _, _) => h
    case Pushing(h, _, _) => Some(h)
    case Retaining(h) => Some(h)
    case Detaching(h, _) => Some(h)
    case Finalized(h) => Some(h)
    case Completing(h, _) => Some(h)
    case Failing(h, _) => h
    case Closing(h) => Some(h)
    case _ => None
  }

  /** frames is history: the frames saved in the row, in order. */
  datatype World = World(
    row: Option<Session>, frames: seq<AudioEvent>,
    entries: seq<Entry>, registered: Option<nat>, connections: map<nat, Connection>)

  datatype Action =
    | Start(id: string, workspaceId: string, createdBy: string, start: StartEvent, now: Time)
    | LookUp
    | Open(now: Time, openFails: bool)
    | ReadForResume(resume: ResumeEvent)
    | FindStream
    | Reattach(now: Time)
    | ReadResume(now: Time)
    | ReadAudio(event: AudioEvent, now: Time)
    | RetryAudio(now: Time)
    | Save(clock: Time)
    | SendFrame(canceled: bool)
    | Leave
    | Breakdown
    | ReadInterrupt(now: Time)
    | DetachLease
    | ReadFinish(finish: FinishEvent, now: Time)
    | FinishLease(canceled: bool, result: ProviderResult)
    | ReadComplete(now: Time)
    | ReadFailure
    | CloseLease

  /** Steps that belong to no connection. */
  datatype Background = ReapStream(now: Time) | DropClosed | EndLifetime

  const NO_STREAM: string := "provider_unavailable"

  // ---------------------------------------------------------------------------
  // Steps
  // ---------------------------------------------------------------------------

  function Put(w: World, c: nat, connection: Connection): World {
    w.(connections := w.connections[c := connection])
  }

  /** Whether connection c (possibly new) can take the action now. */
  predicate Ready(w: World, c: nat, a: Action) {
    match a
    case Start(_, _, _, _, _) => c !in w.connections
    case ReadForResume(_) => c !in w.connections
    case LookUp => c in w.connections && w.connections[c].Created?
    case Open(_, _) => c in w.connections && w.connections[c].Checked?
    case FindStream => c in w.connections && w.connections[c].ResumeRead?
    case Reattach(_) => c in w.connections && w.connections[c].ResumeFound? && w.connections[c].entry < |w.entries|
    case ReadResume(_) => c in w.connections && w.connections[c].Leased? && w.row.Some?
    case ReadAudio(_, _) => c in w.connections && w.connections[c].Serving? && w.row.Some?
    case RetryAudio(_) => c in w.connections && w.connections[c].Retrying? && w.row.Some?
    case Save(_) => c in w.connections && w.connections[c].Saving? && w.row.Some?
    case SendFrame(_) => c in w.connections && w.connections[c].Pushing? && w.row.Some?
        && w.connections[c].handle.entry < |w.entries| && WellFormed(w.entries[w.connections[c].handle.entry].stream)
    case Leave => c in w.connections && w.connections[c].Serving?
    case Breakdown => c in w.connections && AfterBreakdown(w.connections[c]).Some?
    case ReadInterrupt(_) => c in w.connections && w.connections[c].Retaining? && w.row.Some?
    case DetachLease => c in w.connections && w.connections[c].Detaching? && w.connections[c].handle.entry < |w.entries|
    case ReadFinish(_, _) => c in w.connections && w.connections[c].Serving? && w.row.Some?
    case FinishLease(_, _) =>
        c in w.connections && w.connections[c].Finalized? && w.connections[c].handle.entry < |w.entries|
    case ReadComplete(_) => c in w.connections && w.connections[c].Completing? && w.row.Some?
    case ReadFailure => c in w.connections && w.connections[c].Failing? && w.row.Some?
    case CloseLease => c in w.connections && w.connections[c].Closing? && w.connections[c].handle.entry < |w.entries|
  }

  /** Service.Start: insert the row, or stop because the request is a replay. */
  function StartStep(w: World, c: nat, id: string, workspaceId: string, createdBy: string, e: StartEvent,
                     now: Time): World {
    if w.row.Some? then Put(w, c, Done)
    else match NewSession(id, workspaceId, createdBy, e, now, 0)
      case Ok(s) => Put(w, c, Created(s)).(row := Some(s))
      case Err(_) => Put(w, c, Done)
  }

  /** StreamHub.Start: the first look at the map ... */
  function LookUpStep(w: World, c: nat): World
    requires Ready(w, c, LookUp)
  {
    Put(w, c, if w.registered.Some? then Failing(None, NO_STREAM) else Checked(w.connections[c].session))
  }

  /** ... and opening and registering the stream. */
  function OpenStep(w: World, c: nat, now: Time, openFails: bool): World
    requires Ready(w, c, Open(now, openFails))
  {
    var s := w.connections[c].session;
    var stream := OpenStream(s, Fixture(IsChinese(s.language)), IsChinese(s.language));
    if now == ZERO_TIME || now >= s.expiresAt || openFails || stream.None? then Put(w, c, Failing(None, NO_STREAM))
    else
      var entry := FreshEntry(s.expiresAt, stream.value);
      if w.registered.Some? then
        Put(w, c, Failing(None, NO_STREAM)).(entries := w.entries + [CloseEntry(entry, 1).value])
      else
        Put(w, c, Serving(Handle(|w.entries|, 1), 0)).(entries := w.entries + [entry], registered := Some(|w.entries|))
  }

  /** The controller's read of the session a client wants to resume. */
  function ReadForResumeStep(w: World, c: nat, e: ResumeEvent): World {
    if w.row.None? || !w.row.value.state.Interrupted? then Put(w, c, Done) else Put(w, c, ResumeRead(w.row.value, e))
  }

  /** StreamHub.Resume: look the stream up ... */
  function FindStreamStep(w: World, c: nat): World
    requires Ready(w, c, FindStream)
  {
    var k := w.connections[c];
    Put(w, c, if w.registered.None? then Failing(None, "stream_timeout")
        else ResumeFound(k.current, k.resume, w.registered.value))
  }

  /** ... and take the next lease on it. */
  function ReattachStep(w: World, c: nat, now: Time): World
    requires Ready(w, c, Reattach(now))
  {
    var k := w.connections[c];
    match ResumeEntry(w.entries[k.entry], now)
    case Ok(e) => Put(w, c, Leased(Handle(k.entry, e.lease), k.current, k.resume)).(entries := w.entries[k.entry := e])
    case Err(_) => Put(w, c, Failing(None, "stream_timeout"))
  }

  /** A connection has read the row and computed a transition: it goes on to save the outcome with
      the lease it holds, or to another point if the transition was refused. */
  function Attempted(w: World, c: nat, purpose: Purpose, r: Result<Session, Error>, otherwise: Connection): World
    requires w.row.Some? && c in w.connections
  {
    Put(w, c, if r.Ok? then Saving(Held(w.connections[c]), purpose, w.row.value, r.value) else otherwise)
  }

  function ReadResumeStep(w: World, c: nat, now: Time): World
    requires Ready(w, c, ReadResume(now))
  {
    var k := w.connections[c];
    Attempted(w, c, ForResume(k.current.reconnectBy), RealtimeSession.Resume(w.row.value, k.resume, now),
              Detaching(k.handle, k.current.reconnectBy))
  }

  /** The accept errors after which the controller keeps serving. */
  predicate Retriable(e: Error) { e.SequenceGap? || e.InvalidEvent? || e.VersionConflict? }

  /** One read of AcceptAudio's loop, on the connection's behalf. */
  function ReadAudioStep(w: World, c: nat, h: Handle, revision: int, e: AudioEvent, attempt: nat, now: Time): World
    requires w.row.Some?
  {
    match ApplyAudio(w.row.value, e, now)
    case Err(error) => Put(w, c, if Retriable(error) then Serving(h, revision) else Retaining(h))
    case Ok((_, Duplicate)) => Put(w, c, Serving(h, revision))
    case Ok((u, Accepted)) => Put(w, c, Saving(Some(h), ForAudio(revision, e, attempt), w.row.value, u))
  }

  /** Where a connection goes once its row is saved. The branch on a payload that does not decode
      is the controller's; it is shown below never to be taken. */
  function AfterSave(holding: Option<Handle>, purpose: Purpose, updated: Session): Connection {
    match purpose
    case ForAudio(revision, e, _) =>
      if holding.None? then Done
      else if e.pcm.None? then Serving(holding.value, revision)
      else Pushing(holding.value, revision, e)
    case ForResume(_) => if holding.None? then Done else Serving(holding.value, 0)
    case ForInterrupt => if holding.None? then Done else Detaching(holding.value, updated.reconnectBy)
    case ForFinish(_) => if holding.None? then Done else Finalized(holding.value)
    case ForComplete => Done
    case ForFailure => if holding.None? then Done else Closing(holding.value)
  }

  /** Where it goes when the version has moved. */
  function AfterConflict(holding: Option<Handle>, purpose: Purpose): Connection {
    if holding.None? then Done
    else
      var h := holding.value;
      match purpose
      case ForAudio(revision, e, attempt) =>
          if attempt + 1 < 3 then Retrying(h, revision, e, attempt + 1) else Serving(h, revision)
      case ForResume(release) => Detaching(h, release)
      case ForInterrupt => Closing(h)
      case ForFinish(revision) => Serving(h, revision)
      case ForComplete => Failing(holding, "internal_error")
      case ForFailure => Closing(h)
  }

  /** Where a connection goes when the database fails it with anything but a version conflict; None
      at the points where it does not talk to the database. */
  function AfterBreakdown(k: Connection): Option<Connection> {
    match k
    case Leased(h, current, _) => Some(Detaching(h, current.reconnectBy))
    case Serving(h, _) => Some(Retaining(h))
    case Retrying(h, _, _, _) => Some(Retaining(h))
    case Saving(Some(h), ForAudio(_, _, _), _, _) => Some(Retaining(h))
    case Saving(Some(h), ForFinish(_), _, _) => Some(Retaining(h))
    case Saving(holding, purpose, _, _) => Some(AfterConflict(holding, purpose))
    case Retaining(h) => Some(Closing(h))
    case Completing(h, _) => Some(Failing(Some(h), "internal_error"))
    case Failing(holding, _) => Some(if holding.None? then Done else Closing(holding.value))
    case _ => None
  }

  function SaveStep(w: World, c: nat, clock: Time): World
    requires Ready(w, c, Save(clock))
  {
    var k := w.connections[c];
    if k.updated.version == k.snapshot.version + 1 && w.row.value.version == k.snapshot.version then
      Put(w, c, AfterSave(k.holding, k.purpose, k.updated))
        .(row := Some(Stamped(k.updated, clock)), frames := if k.purpose.ForAudio? then w.frames + [k.purpose.event]
          else w.frames)
    else Put(w, c, AfterConflict(k.holding, k.purpose))
  }

  /** StreamLease.Push and the controller's check of the update. */
  function PushStep(w: World, c: nat, canceled: bool): World
    requires Ready(w, c, SendFrame(canceled))
  {
    var k := w.connections[c];
    var i := k.handle.entry;
    match PushEntry(w.entries[i], k.handle.lease, k.event, canceled)
    case Err(_) => Put(w, c, Failing(Some(k.handle), NO_STREAM))
    case Ok((e, update)) =>
      var next :=
        if update.None? then Serving(k.handle, k.revision)
        else if ValidUpdate(update.value, k.revision, k.event, w.row.value.frameDurationMs)
            then Serving(k.handle, update.value.revision)
        else Failing(Some(k.handle), "provider_rejected");
      Put(w, c, next).(entries := w.entries[i := e])
  }

  function ReadInterruptStep(w: World, c: nat, now: Time): World
    requires Ready(w, c, ReadInterrupt(now))
  {
    Attempted(w, c, ForInterrupt, Interrupt(w.row.value, now, DEFAULT_RECONNECT_WINDOW),
              Closing(w.connections[c].handle))
  }

  function DetachStep(w: World, c: nat): World
    requires Ready(w, c, DetachLease)
  {
    var k := w.connections[c];
    var i := k.handle.entry;
    if k.reconnectBy.None? then Put(w, c, Closing(k.handle))
    else match DetachEntry(w.entries[i], k.handle.lease, k.reconnectBy.value)
      case Ok(e) => Put(w, c, Done).(entries := w.entries[i := e])
      case Err(_) => Put(w, c, Closing(k.handle))
  }

  function ReadFinishStep(w: World, c: nat, e: FinishEvent, now: Time): World
    requires Ready(w, c, ReadFinish(e, now))
  {
    var k := w.connections[c];
    var r := BeginFinalization(w.row.value, e, now);
    var keepsServing := r.Err? && (r.error.FinalSequence? || r.error.InvalidEvent? || r.error.VersionConflict?);
    Attempted(w, c, ForFinish(k.revision), r, if keepsServing then k else Retaining(k.handle))
  }

  function AfterFinish(h: Handle, failure: Option<StreamError>, result: ProviderResult): Connection {
    if failure.Some? then Failing(Some(h), NO_STREAM)
    else if !ValidResult(NormalizeResult(result)) then Failing(Some(h), "provider_rejected")
    else Completing(h, NormalizeResult(result))
  }

  /** StreamLease.Finish: the stream is closed whatever the provider answers. */
  function FinishStep(w: World, c: nat, canceled: bool, result: ProviderResult): World
    requires Ready(w, c, FinishLease(canceled, result))
  {
    var h := w.connections[c].handle;
    match FinishEntry(w.entries[h.entry], h.lease, canceled)
    case Err(_) => Put(w, c, Failing(Some(h), NO_STREAM))
    case Ok((e, failure)) =>
      Put(w, c, AfterFinish(h, failure, result)).(entries := w.entries[h.entry := e])
  }

  function ReadCompleteStep(w: World, c: nat, now: Time): World
    requires Ready(w, c, ReadComplete(now))
  {
    var k := w.connections[c];
    Attempted(w, c, ForComplete, Complete(w.row.value, k.result, now), Failing(Some(k.handle), "internal_error"))
  }

  /** failSession: record the failure if the session still allows it, then close the lease. */
  function ReadFailureStep(w: World, c: nat): World
    requires Ready(w, c, ReadFailure)
  {
    var k := w.connections[c];
    Attempted(w, c, ForFailure, Fail(w.row.value, k.code), if k.holding.None? then Done else Closing(k.holding.value))
  }

  function CloseStep(w: World, c: nat): World
    requires Ready(w, c, CloseLease)
  {
    var h := w.connections[c].handle;
    match CloseEntry(w.entries[h.entry], h.lease)
    case Ok(e) => Put(w, c, Done).(entries := w.entries[h.entry := e])
    case Err(_) => Put(w, c, Done)
  }

  function Next(w: World, c: nat, a: Action): World
    requires Ready(w, c, a)
  {
    match a
    case Start(id, workspaceId, createdBy, e, now) => StartStep(w, c, id, workspaceId, createdBy, e, now)
    case LookUp => LookUpStep(w, c)
    case Open(now, openFails) => OpenStep(w, c, now, openFails)
    case ReadForResume(e) => ReadForResumeStep(w, c, e)
    case FindStream => FindStreamStep(w, c)
    case Reattach(now) => ReattachStep(w, c, now)
    case ReadResume(now) => ReadResumeStep(w, c, now)
    case ReadAudio(e, now) => ReadAudioStep(w, c, w.connections[c].handle, w.connections[c].revision, e, 0, now)
    case RetryAudio(now) =>
      var k := w.connections[c];
      ReadAudioStep(w, c, k.handle, k.revision, k.event, k.attempt, now)
    case Save(clock) => SaveStep(w, c, clock)
    case SendFrame(canceled) => PushStep(w, c, canceled)
    case Leave => Put(w, c, Retaining(w.connections[c].handle))
    case Breakdown => Put(w, c, AfterBreakdown(w.connections[c]).value)
    case ReadInterrupt(now) => ReadInterruptStep(w, c, now)
    case DetachLease => DetachStep(w, c)
    case ReadFinish(e, now) => ReadFinishStep(w, c, e, now)
    case FinishLease(canceled, result) => FinishStep(w, c, canceled, result)
    case ReadComplete(now) => ReadCompleteStep(w, c, now)
    case ReadFailure => ReadFailureStep(w, c)
    case CloseLease => CloseStep(w, c)
  }

  /** Reap, the removal that follows every close, and the lifetime timer, on entry i. */
  function Behind(w: World, i: nat, b: Background): World
    requires i < |w.entries|
  {
    match b
    case ReapStream(now) => w.(entries := w.entries[i := ReapEntry(w.entries[i], now)])
    case DropClosed => if w.entries[i].closed && w.registered == Some(i) then w.(registered := None) else w
    case EndLifetime => w.(entries := w.entries[i := w.entries[i].(ended := true)])
  }
}
