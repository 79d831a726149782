/** The durable recording-session state machine: internal/realtime/session.go, the event
    validation of protocol.go, and the column constraints of recording_sessions. */
module RealtimeSession {
  import opened Common
  import opened Strings

  const PROTOCOL_VERSION := "1"
  const MAX_FRAME_BYTES: nat := 64 * 1024
  const MAX_TRANSCRIPT_BYTES: nat := 256 * 1024
  const DEFAULT_SESSION_TTL: int := 2 * HOUR
  const DEFAULT_RECONNECT_WINDOW: int := 90 * SECOND

  datatype State = Streaming | Interrupted | Finalizing | Completed | Failed | Expired

  datatype Error =
    | InvalidEvent | StateConflict | SessionMismatch | SequenceGap | FrameSize
    | SessionExpired | FinalSequence | VersionConflict | NotFound

  datatype Disposition = Accepted | Duplicate

  datatype StartEvent = StartEvent(
    protocolVersion: string, clientSessionId: string, idempotencyKey: string,
    encoding: string, sampleRateHz: int, channels: int, frameDurationMs: int,
    language: string, providerProfileId: string, hotwordSetId: string)

  datatype ResumeEvent = ResumeEvent(protocolVersion: string, sessionId: string, lastAcknowledged: int64)

  /** pcm is the strict base64 decoding of the payload, None when it does not decode. */
  datatype AudioEvent = AudioEvent(sessionId: string, sequence: int64, capturedAtMs: int64, pcm: Option<seq<byte>>)

  datatype FinishEvent = FinishEvent(
    sessionId: string, finalSequence: int64, capturedDurationMs: int64, archiveSha256: string)

  datatype ProviderResult = ProviderResult(text: string, language: string, providerId: string)

  datatype Session = Session(
    id: string, workspaceId: string, createdBy: string, clientSessionId: string,
    idempotencyKey: string, encoding: string, sampleRateHz: int, channels: int,
    frameDurationMs: int, language: string,
    state: State, nextSequence: int, receivedBytes: int, lastCapturedAtMs: int,
    finalTranscript: string, finalLanguage: string, finalProviderId: string,
    archiveSha256: string, capturedDurationMs: int, lastErrorCode: string, version: int,
    startedAt: Time, lastFrameAt: Option<Time>, interruptedAt: Option<Time>,
    reconnectBy: Option<Time>, expiresAt: Time, completedAt: Option<Time>, updatedAt: Time)

  // ---------------------------------------------------------------------------
  // Lexical checks
  // ---------------------------------------------------------------------------

  predicate IsLowerHex(c: char) { '0' <= c <= '9' || 'a' <= c <= 'f' }
  predicate IsLetter(c: char) { 'a' <= c <= 'z' || 'A' <= c <= 'Z' }
  predicate IsAlphanumeric(c: char) { IsLetter(c) || '0' <= c <= '9' }

  predicate CanonicalUuid(s: string) {
    && |s| == 36
    && forall i :: 0 <= i < 36 ==> if i in {8, 13, 18, 23} then s[i] == '-' else IsLowerHex(s[i])
  }

  predicate CanonicalSha256(s: string) {
    |s| == 64 && forall i :: 0 <= i < 64 ==> IsLowerHex(s[i])
  }

  /** The subtags that may follow the primary language subtag. */
  predicate Subtags(s: string)
    decreases |s|
  {
    s == [] ||
    (s[0] == '-' &&
     var n := Span(s[1..], IsAlphanumeric);
     1 <= n <= 8 && Subtags(s[1 + n..]))
  }

  predicate LanguageTag(s: string) {
    var n := Span(s, IsLetter);
    2 <= n <= 8 && Subtags(s[n..])
  }

  predicate ProviderId(s: string) {
    && 1 <= |s| <= 64
    && ('a' <= s[0] <= 'z' || '0' <= s[0] <= '9')
    && forall i :: 1 <= i < |s| ==> 'a' <= s[i] <= 'z' || '0' <= s[i] <= '9' || s[i] == '_' || s[i] == '-'
  }

  predicate ValidSampleRate(rate: int) { rate in {8000, 16000, 24000, 48000} }

  predicate ValidIdempotencyKey(s: string) {
    && 1 <= Utf8Length(s) <= 200
    && Trimmed(s)
    && forall i :: 0 <= i < |s| ==> !IsControl(s[i])
  }

  predicate ValidStart(e: StartEvent) {
    && e.protocolVersion == PROTOCOL_VERSION
    && CanonicalUuid(e.clientSessionId)
    && ValidIdempotencyKey(e.idempotencyKey)
    && e.encoding == "pcm_s16le"
    && e.channels == 1
    && 20 <= e.frameDurationMs <= 100
    && ValidSampleRate(e.sampleRateHz)
    && LanguageTag(e.language)
    && (e.providerProfileId != "" ==> CanonicalUuid(e.providerProfileId))
    && (e.hotwordSetId != "" ==> CanonicalUuid(e.hotwordSetId))
    && e.sampleRateHz * e.channels * 2 * e.frameDurationMs / 1000 <= MAX_FRAME_BYTES
  }

  predicate ValidResume(e: ResumeEvent) {
    e.protocolVersion == PROTOCOL_VERSION && CanonicalUuid(e.sessionId) && e.lastAcknowledged >= -1
  }

  predicate ValidAudio(e: AudioEvent) {
    && CanonicalUuid(e.sessionId) && e.sequence >= 0 && e.capturedAtMs >= 0
    && e.pcm.Some? && 0 < |e.pcm.value| <= MAX_FRAME_BYTES && |e.pcm.value| % 2 == 0
  }

  predicate ValidFinish(e: FinishEvent) {
    CanonicalUuid(e.sessionId) && e.finalSequence >= -1 && e.capturedDurationMs >= 0 && CanonicalSha256(e.archiveSha256)
  }

  predicate SafeErrorCode(code: string) {
    code in {"client_closed", "internal_error", "provider_rejected", "provider_unavailable", "stream_timeout"}
  }

  // ---------------------------------------------------------------------------
  // Transitions
  // ---------------------------------------------------------------------------

  predicate Terminal(state: State) { state.Completed? || state.Failed? || state.Expired? }

  function MaximumFrameBytes(s: Session): nat {
    var bytes := s.sampleRateHz * s.channels * 2 * s.frameDurationMs / 1000;
    if bytes < 1 || bytes > MAX_FRAME_BYTES then MAX_FRAME_BYTES else bytes
  }

  function NewSession(id: string, workspaceId: string, createdBy: string, e: StartEvent, now: Time,
                      ttl: int): Result<Session, Error> {
    if !CanonicalUuid(id) || !CanonicalUuid(workspaceId) || !CanonicalUuid(createdBy) || !ValidStart(e)
        then Err(InvalidEvent)
    else if now == ZERO_TIME then Err(InvalidEvent)
    else
      var effective := if ttl == 0 then DEFAULT_SESSION_TTL else ttl;
      if effective <= 0 || effective > DEFAULT_SESSION_TTL then Err(InvalidEvent)
      else Ok(Session(id, workspaceId, createdBy, e.clientSessionId, e.idempotencyKey, e.encoding,
                      e.sampleRateHz, e.channels, e.frameDurationMs, e.language,
                      Streaming, 0, 0, 0, "", "", "", "", 0, "", 1,
                      now, None, None, None, now + effective, None, now))
  }

  function ApplyAudio(s: Session, e: AudioEvent, now: Time): Result<(Session, Disposition), Error> {
    if !s.state.Streaming? then Err(StateConflict)
    else if !ValidAudio(e) || now == ZERO_TIME then Err(InvalidEvent)
    else if e.sessionId != s.id then Err(SessionMismatch)
    else if now >= s.expiresAt then Err(SessionExpired)
    else if e.sequence < s.nextSequence then Ok((s, Duplicate))
    else if e.sequence > s.nextSequence then Err(SequenceGap)
    else if s.nextSequence > 0 && e.capturedAtMs < s.lastCapturedAtMs then Err(InvalidEvent)
    else if |e.pcm.value| > MaximumFrameBytes(s) then Err(FrameSize)
    else
      Ok((s.(nextSequence := s.nextSequence + 1,
             receivedBytes := s.receivedBytes + |e.pcm.value|,
             lastCapturedAtMs := e.capturedAtMs,
             lastFrameAt := Some(now), updatedAt := now, version := s.version + 1),
          Accepted))
  }

  function Interrupt(s: Session, now: Time, window: int): Result<Session, Error> {
    if !s.state.Streaming? then Err(StateConflict)
    else if now == ZERO_TIME then Err(InvalidEvent)
    else
      var effective := if window == 0 then DEFAULT_RECONNECT_WINDOW else window;
      if effective <= 0 || effective > 10 * MINUTE then Err(InvalidEvent)
      else if now >= s.expiresAt then Err(SessionExpired)
      else Ok(s.(state := State.Interrupted, interruptedAt := Some(now),
                 reconnectBy := Some(if now + effective > s.expiresAt then s.expiresAt else now + effective),
                 updatedAt := now, version := s.version + 1))
  }

  function Resume(s: Session, e: ResumeEvent, now: Time): Result<Session, Error> {
    if !s.state.Interrupted? then Err(StateConflict)
    else if !ValidResume(e) || now == ZERO_TIME then Err(InvalidEvent)
    else if e.sessionId != s.id then Err(SessionMismatch)
    else if e.lastAcknowledged > s.nextSequence - 1 then Err(SequenceGap)
    else if s.reconnectBy.None? || now > s.reconnectBy.value || now >= s.expiresAt then Err(SessionExpired)
    else Ok(s.(state := Streaming, interruptedAt := None, reconnectBy := None, updatedAt := now,
               version := s.version + 1))
  }

  function BeginFinalization(s: Session, e: FinishEvent, now: Time): Result<Session, Error> {
    if !s.state.Streaming? && !s.state.Interrupted? then Err(StateConflict)
    else if !ValidFinish(e) || now == ZERO_TIME then Err(InvalidEvent)
    else if e.sessionId != s.id then Err(SessionMismatch)
    else if e.finalSequence != s.nextSequence - 1 then Err(FinalSequence)
    else if e.capturedDurationMs < s.lastCapturedAtMs then Err(InvalidEvent)
    else if now >= s.expiresAt then Err(SessionExpired)
    else Ok(s.(state := Finalizing, archiveSha256 := e.archiveSha256, capturedDurationMs := e.capturedDurationMs,
               interruptedAt := None, reconnectBy := None, updatedAt := now, version := s.version + 1))
  }

  function NormalizeResult(r: ProviderResult): ProviderResult {
    ProviderResult(TrimSpace(r.text), TrimSpace(r.language), TrimSpace(r.providerId))
  }

  predicate ValidResult(r: ProviderResult) {
    r.text != "" && Utf8Length(r.text) <= MAX_TRANSCRIPT_BYTES && LanguageTag(r.language) && ProviderId(r.providerId)
  }

  function Complete(s: Session, r: ProviderResult, now: Time): Result<Session, Error> {
    if !s.state.Finalizing? then Err(StateConflict)
    else if now == ZERO_TIME then Err(InvalidEvent)
    else
      var result := NormalizeResult(r);
      if !ValidResult(result) then Err(InvalidEvent)
      else Ok(s.(state := State.Completed, finalTranscript := result.text, finalLanguage := result.language,
                 finalProviderId := result.providerId, completedAt := Some(now), updatedAt := now,
                 version := s.version + 1))
  }

  function Fail(s: Session, code: string): Result<Session, Error> {
    if Terminal(s.state) then Err(StateConflict)
    else if !SafeErrorCode(code) then Err(InvalidEvent)
    else Ok(s.(state := State.Failed, lastErrorCode := code, interruptedAt := None, reconnectBy := None,
               version := s.version + 1))
  }

  function Expire(s: Session, now: Time): Result<Session, Error> {
    if Terminal(s.state) || now < s.expiresAt then Err(StateConflict)
    else Ok(s.(state := State.Expired, interruptedAt := None, reconnectBy := None, version := s.version + 1))
  }

  // ---------------------------------------------------------------------------
  // Runs
  // ---------------------------------------------------------------------------

  datatype Transition =
    | Audio(audio: AudioEvent, now: Time)
    | Interruption(now: Time, window: int)
    | Resumption(resume: ResumeEvent, now: Time)
    | Finalization(finish: FinishEvent, now: Time)
    | Completion(result: ProviderResult, now: Time)
    | Failure(code: string)
    | Expiry(now: Time)

  function Apply(s: Session, t: Transition): Result<Session, Error> {
    match t
    case Audio(e, now) => (match ApplyAudio(s, e, now) case Ok(p) => Ok(p.0) case Err(err) => Err(err))
    case Interruption(now, window) => Interrupt(s, now, window)
    case Resumption(e, now) => Resume(s, e, now)
    case Finalization(e, now) => BeginFinalization(s, e, now)
    case Completion(r, now) => Complete(s, r, now)
    case Failure(code) => Fail(s, code)
    case Expiry(now) => Expire(s, now)
  }

  /** A rejected transition leaves the stored session as it was. */
  function After(s: Session, t: Transition): Session {
    match Apply(s, t)
    case Ok(next) => next
    case Err(_) => s
  }

  function Run(s: Session, ts: seq<Transition>): Session
    decreases |ts|
  {
    if ts == [] then s else After(Run(s, ts[..|ts| - 1]), ts[|ts| - 1])
  }

  /** The frames a run accepts, in order: the history the session's counters summarise. */
  function AcceptedFrames(s: Session, ts: seq<Transition>): seq<AudioEvent>
    decreases |ts|
  {
    if ts == [] then []
    else
      var before := Run(s, ts[..|ts| - 1]);
      var t := ts[|ts| - 1];
      AcceptedFrames(s, ts[..|ts| - 1])
      + (if t.Audio? && ApplyAudio(before, t.audio, t.now).Ok? && ApplyAudio(before, t.audio, t.now).value.1.Accepted?
         then [t.audio] else [])
  }

  function PcmBytes(e: AudioEvent): nat { if e.pcm.Some? then |e.pcm.value| else 0 }

  function ByteSum(frames: seq<AudioEvent>): nat {
    if frames == [] then 0 else ByteSum(frames[..|frames| - 1]) + PcmBytes(frames[|frames| - 1])
  }

  /** Frames numbered 0, 1, 2, ... whose capture times never go back. */
  predicate InOrder(frames: seq<AudioEvent>) {
    && (forall i :: 0 <= i < |frames| ==> frames[i].sequence == i)
    && (forall i :: 0 <= i < |frames| - 1 ==> frames[i].capturedAtMs <= frames[i + 1].capturedAtMs)
  }

  ghost predicate FramesFit(frames: seq<AudioEvent>, limit: nat) {
    forall i :: 0 <= i < |frames| ==>
      ValidAudio(frames[i]) && |frames[i].pcm.value| <= limit
  }

  /** What every stored session satisfies. */
  ghost predicate SessionInv(s: Session) {
    && s.version >= 1
    && ValidSampleRate(s.sampleRateHz) && s.channels == 1 && 20 <= s.frameDurationMs <= 100
    && s.encoding == "pcm_s16le"
    && LanguageTag(s.language) && 1 <= |s.idempotencyKey| <= 200
    && s.startedAt < s.expiresAt <= s.startedAt + DEFAULT_SESSION_TTL
    && (s.reconnectBy.Some? <==> s.state.Interrupted?)
    && (s.interruptedAt.Some? <==> s.state.Interrupted?)
    && (s.reconnectBy.Some? ==> s.interruptedAt.value < s.reconnectBy.value <= s.expiresAt)
    && 0 <= s.nextSequence
    && 2 * s.nextSequence <= s.receivedBytes <= s.nextSequence * MaximumFrameBytes(s)
    && 0 <= s.lastCapturedAtMs
    && (s.nextSequence == 0 ==> s.lastCapturedAtMs == 0)
    && (s.nextSequence == 0 <==> s.lastFrameAt.None?)
    && (s.archiveSha256 == "" ==> s.capturedDurationMs == 0)
    && (s.archiveSha256 != "" ==> CanonicalSha256(s.archiveSha256) && s.capturedDurationMs >= s.lastCapturedAtMs)
    && (s.state.Streaming? || s.state.Interrupted? ==> s.archiveSha256 == "")
    && (s.state.Finalizing? || s.state.Completed? ==> s.archiveSha256 != "")
    && (s.state.Completed? <==> s.completedAt.Some?)
    && (s.state.Completed? ==> StoredResultStable(s))
    && (!s.state.Completed? ==> s.finalTranscript == s.finalLanguage == s.finalProviderId == "")
    && (s.state.Failed? <==> s.lastErrorCode != "")
    && (s.state.Failed? ==> SafeErrorCode(s.lastErrorCode))
  }

  function StoredResult(s: Session): ProviderResult {
    ProviderResult(s.finalTranscript, s.finalLanguage, s.finalProviderId)
  }

  /** Normalising the stored result again changes nothing and accepts it. */
  predicate StoredResultStable(s: Session) {
    NormalizeResult(StoredResult(s)) == StoredResult(s) && ValidResult(StoredResult(s))
  }

  lemma NormalizeIdempotent(r: ProviderResult)
    ensures NormalizeResult(NormalizeResult(r)) == NormalizeResult(r)
  {
    TrimSpaceTrims(r.text);
    TrimSpaceTrims(NormalizeResult(r).text);
    TrimSpaceTrims(r.language);
    TrimSpaceTrims(NormalizeResult(r).language);
    TrimSpaceTrims(r.providerId);
    TrimSpaceTrims(NormalizeResult(r).providerId);
  }

  lemma FreshSessionInv(id: string, workspaceId: string, createdBy: string, e: StartEvent, now: Time, ttl: int)
    requires NewSession(id, workspaceId, createdBy, e, now, ttl).Ok?
    ensures SessionInv(NewSession(id, workspaceId, createdBy, e, now, ttl).value)
  {
    Utf8LengthBound(e.idempotencyKey);
  }

  lemma AudioKeepsInv(s: Session, e: AudioEvent, now: Time)
    requires SessionInv(s) && ApplyAudio(s, e, now).Ok?
    ensures SessionInv(ApplyAudio(s, e, now).value.0)
  {
    var next := ApplyAudio(s, e, now).value.0;
    if ApplyAudio(s, e, now).value.1.Accepted? {
      var limit := MaximumFrameBytes(s);
      assert MaximumFrameBytes(next) == limit;
      assert next.nextSequence * limit == s.nextSequence * limit + limit;
    }
  }

  lemma CompletionKeepsInv(s: Session, r: ProviderResult, now: Time)
    requires SessionInv(s) && Complete(s, r, now).Ok?
    ensures SessionInv(Complete(s, r, now).value)
  {
    NormalizeIdempotent(r);
  }

  lemma WindowKeepsInv(s: Session, t: Transition)
    requires SessionInv(s) && (t.Interruption? || t.Resumption?)
    ensures SessionInv(After(s, t))
  {}

  lemma EndingKeepsInv(s: Session, t: Transition)
    requires SessionInv(s) && (t.Finalization? || t.Failure? || t.Expiry?)
    ensures SessionInv(After(s, t))
  {}

  lemma StepKeepsInv(s: Session, t: Transition)
    requires SessionInv(s)
    ensures SessionInv(After(s, t))
  {
    if t.Audio? {
      if ApplyAudio(s, t.audio, t.now).Ok? {
        AudioKeepsInv(s, t.audio, t.now);
      }
    } else if t.Completion? {
      if Complete(s, t.result, t.now).Ok? {
        CompletionKeepsInv(s, t.result, t.now);
      }
    } else if t.Interruption? || t.Resumption? {
      WindowKeepsInv(s, t);
    } else {
      EndingKeepsInv(s, t);
    }
  }

  /** Every session reachable from a fresh one keeps the invariant. */
  lemma {:induction false} ReachableSessionInv(s: Session, ts: seq<Transition>)
    requires SessionInv(s)
    ensures SessionInv(Run(s, ts))
    decreases |ts|
  {
    if ts != [] {
      ReachableSessionInv(s, ts[..|ts| - 1]);
      StepKeepsInv(Run(s, ts[..|ts| - 1]), ts[|ts| - 1]);
    }
  }

  lemma ByteSumAppend(frames: seq<AudioEvent>, e: AudioEvent)
    ensures ByteSum(frames + [e]) == ByteSum(frames) + PcmBytes(e)
  {
    assert (frames + [e])[..|frames + [e]| - 1] == frames;
  }

  /** The session's counters summarise the given frames. */
  ghost predicate Counts(s: Session, frames: seq<AudioEvent>) {
    && |frames| == s.nextSequence
    && ByteSum(frames) == s.receivedBytes
    && InOrder(frames)
    && FramesFit(frames, MaximumFrameBytes(s))
    && (frames != [] ==> frames[|frames| - 1].capturedAtMs == s.lastCapturedAtMs)
  }

  lemma AcceptedFrameExtends(s: Session, frames: seq<AudioEvent>, e: AudioEvent, now: Time)
    requires Counts(s, frames)
    requires ApplyAudio(s, e, now).Ok? && ApplyAudio(s, e, now).value.1.Accepted?
    ensures Counts(ApplyAudio(s, e, now).value.0, frames + [e])
  {
    ByteSumAppend(frames, e);
  }

  /** No transition other than an accepted frame touches what the frames determine. */
  lemma OtherStepsKeepFrames(s: Session, t: Transition)
    ensures var next := After(s, t);
            && MaximumFrameBytes(next) == MaximumFrameBytes(s)
            && next.id == s.id
            && (next.nextSequence == s.nextSequence ==>
                  next.receivedBytes == s.receivedBytes && next.lastCapturedAtMs == s.lastCapturedAtMs)
            && (next.nextSequence != s.nextSequence ==>
                  t.Audio? && ApplyAudio(s, t.audio, t.now).Ok? && ApplyAudio(s, t.audio, t.now).value.1.Accepted?)
  {}

  /** Whatever else happens, the counters of a fresh session count exactly the accepted frames:
      they carry the numbers 0..NextSequence-1 in order, with capture times that never go back,
      and ReceivedBytes is the sum of their sizes. */
  lemma {:induction false} CountersMatchAcceptedFrames(s: Session, ts: seq<Transition>)
    requires s.nextSequence == 0 && s.receivedBytes == 0
    ensures Counts(Run(s, ts), AcceptedFrames(s, ts))
    ensures MaximumFrameBytes(Run(s, ts)) == MaximumFrameBytes(s) && Run(s, ts).id == s.id
    decreases |ts|
  {
    if ts != [] {
      var init, t := ts[..|ts| - 1], ts[|ts| - 1];
      CountersMatchAcceptedFrames(s, init);
      var before, frames := Run(s, init), AcceptedFrames(s, init);
      OtherStepsKeepFrames(before, t);
      if t.Audio? && ApplyAudio(before, t.audio, t.now).Ok? && ApplyAudio(before, t.audio, t.now).value.1.Accepted? {
        AcceptedFrameExtends(before, frames, t.audio, t.now);
        assert AcceptedFrames(s, ts) == frames + [t.audio];
      } else {
        assert AcceptedFrames(s, ts) == frames;
      }
    }
  }

  /** Terminal states are absorbing: no later transition of any kind changes the session. */
  lemma {:induction false} TerminalIsAbsorbing(s: Session, ts: seq<Transition>)
    requires Terminal(s.state)
    ensures Run(s, ts) == s
    decreases |ts|
  {
    if ts != [] {
      TerminalIsAbsorbing(s, ts[..|ts| - 1]);
    }
  }

  /** The version counts the transitions that changed the row. */
  function Changes(s: Session, ts: seq<Transition>): nat
    decreases |ts|
  {
    if ts == [] then 0
    else
      var before := Run(s, ts[..|ts| - 1]);
      Changes(s, ts[..|ts| - 1]) + if After(before, ts[|ts| - 1]) != before then 1 else 0
  }

  lemma ChangeBumpsVersion(s: Session, t: Transition)
    ensures After(s, t).version == s.version + if After(s, t) != s then 1 else 0
  {}

  lemma {:induction false} VersionCountsChanges(s: Session, ts: seq<Transition>)
    ensures Run(s, ts).version == s.version + Changes(s, ts)
    decreases |ts|
  {
    if ts != [] {
      VersionCountsChanges(s, ts[..|ts| - 1]);
      ChangeBumpsVersion(Run(s, ts[..|ts| - 1]), ts[|ts| - 1]);
    }
  }

  // ---------------------------------------------------------------------------
  // Storage of a session row
  // ---------------------------------------------------------------------------

  /** A stored row: the columns that hold a field itself, and the nullable ones. */
  datatype Row = Row(
    plain: Session, requestHash: string, protocolVersion: string, lastCapturedAtMs: Option<int>,
        finalTranscript: Option<string>, finalLanguage: Option<string>,
    finalProviderId: Option<string>, archiveSha256: Option<string>, capturedDurationMs: Option<int>,
        lastErrorCode: Option<string>)

  function NullableText(s: string): Option<string> { if s == "" then None else Some(s) }

  /** What the columns that hold a field itself say: nothing of the nullable ones. */
  function Plain(s: Session): Session {
    s.(lastCapturedAtMs := 0, finalTranscript := "", finalLanguage := "", finalProviderId := "", archiveSha256 := "",
       capturedDurationMs := 0, lastErrorCode := "")
  }

  function ToRow(s: Session, requestHash: string): Row {
    Row(Plain(s), requestHash, PROTOCOL_VERSION,
        if s.nextSequence == 0 then None else Some(s.lastCapturedAtMs),
        NullableText(s.finalTranscript), NullableText(s.finalLanguage), NullableText(s.finalProviderId),
        NullableText(s.archiveSha256),
        if s.archiveSha256 == "" then None else Some(s.capturedDurationMs),
        NullableText(s.lastErrorCode))
  }

  function TextOr(o: Option<string>): string { if o.Some? then o.value else "" }
  function IntOr(o: Option<int>): int { if o.Some? then o.value else 0 }

  function FromRow(r: Row): Session {
    r.plain.(lastCapturedAtMs := IntOr(r.lastCapturedAtMs),
             finalTranscript := TextOr(r.finalTranscript), finalLanguage := TextOr(r.finalLanguage),
             finalProviderId := TextOr(r.finalProviderId), archiveSha256 := TextOr(r.archiveSha256),
             capturedDurationMs := IntOr(r.capturedDurationMs), lastErrorCode := TextOr(r.lastErrorCode))
  }

  /** The row as Update leaves it: the database writes the time of the update itself. */
  function Stamped(s: Session, clock: Time): Session { s.(updatedAt := clock) }

  lemma StampKeepsInv(s: Session, clock: Time, frames: seq<AudioEvent>)
    requires SessionInv(s)
    ensures SessionInv(Stamped(s, clock)) && (Counts(s, frames) ==> Counts(Stamped(s, clock), frames))
  {}

  /** Writing a session with NULL for its absent parts and reading it back loses nothing. */
  lemma RowRoundTrip(s: Session, requestHash: string)
    requires SessionInv(s)
    ensures FromRow(ToRow(s, requestHash)) == s
  {}

  /** The CHECK constraints of recording_sessions, constraint by constraint. */
  ghost predicate SchemaAccepts(r: Row) {
    var s := r.plain;
    && 1 <= |s.idempotencyKey| <= 200 && CanonicalSha256(r.requestHash) && r.protocolVersion == "1"
    && s.encoding == "pcm_s16le" && ValidSampleRate(s.sampleRateHz) && s.channels == 1 && 20 <= s.frameDurationMs <= 100
    && 2 <= |s.language| <= 35
    && s.nextSequence >= 0 && s.receivedBytes >= 0
    && (r.lastCapturedAtMs.Some? ==> r.lastCapturedAtMs.value >= 0)
    && (r.finalTranscript.Some? ==> 1 <= Utf8Length(r.finalTranscript.value) <= 262144)
    && (r.finalLanguage.Some? ==> 2 <= |r.finalLanguage.value| <= 35 && LanguageTag(r.finalLanguage.value))
    && (r.finalProviderId.Some? ==> ProviderId(r.finalProviderId.value))
    && (r.archiveSha256.Some? ==> CanonicalSha256(r.archiveSha256.value))
    && (r.capturedDurationMs.Some? ==> r.capturedDurationMs.value >= 0)
    && (r.lastErrorCode.Some? ==> 1 <= |r.lastErrorCode.value| <= 64)
    && s.version > 0
    && s.expiresAt > s.startedAt
    && (s.nextSequence == 0 <==> s.lastFrameAt.None?)
    && (s.nextSequence == 0 <==> r.lastCapturedAtMs.None?)
    && (if s.state.Interrupted? then s.interruptedAt.Some? && s.reconnectBy.Some?
        else s.interruptedAt.None? && s.reconnectBy.None?)
    && (r.archiveSha256.None? <==> r.capturedDurationMs.None?)
    && (s.state.Finalizing? || s.state.Completed? ==> r.archiveSha256.Some?)
    && (if s.state.Completed?
        then r.finalTranscript.Some? && r.finalLanguage.Some? && r.finalProviderId.Some? && s.completedAt.Some?
        else r.finalTranscript.None? && r.finalLanguage.None? && r.finalProviderId.None? && s.completedAt.None?)
    && (s.state.Failed? <==> r.lastErrorCode.Some?)
  }

  /** The length the protocol never checks: its language pattern is unbounded, the columns are not. */
  predicate LanguageColumnsFit(s: Session) {
    |s.language| <= 35 && |s.finalLanguage| <= 35
  }

  /** A reachable session violates no constraint of its table except the 35-character limit on
      language columns, which the protocol's own language pattern does not enforce. */
  lemma SchemaAcceptsIffLanguagesFit(s: Session, requestHash: string)
    requires SessionInv(s) && CanonicalSha256(requestHash)
    ensures SchemaAccepts(ToRow(s, requestHash)) <==> LanguageColumnsFit(s)
  {
    if s.state.Completed? {
      Utf8LengthBound(s.finalTranscript);
    }
  }

  /** n one-letter subtags. */
  function LongSubtags(n: nat): (r: string)
    ensures |r| == 2 * n
  {
    if n == 0 then "" else "-a" + LongSubtags(n - 1)
  }

  /** One more one-letter subtag in front. */
  lemma OneMoreSubtag(rest: string)
    requires Subtags(rest)
    ensures Subtags("-a" + rest)
  {
    var s := "-a" + rest;
    assert s[1..] == ['a'] + rest && s[1..][1..] == rest && s[2..] == rest;
    assert Span(rest, IsAlphanumeric) == 0;
    assert Span(s[1..], IsAlphanumeric) == 1;
  }

  lemma {:induction false} LongSubtagsAccepted(n: nat)
    ensures Subtags(LongSubtags(n))
  {
    if n > 0 {
      LongSubtagsAccepted(n - 1);
      OneMoreSubtag(LongSubtags(n - 1));
    }
  }

  lemma LongTagAccepted(n: nat)
    requires n >= 1
    ensures LanguageTag("en" + LongSubtags(n)) && |"en" + LongSubtags(n)| == 2 + 2 * n
  {
    var rest := LongSubtags(n);
    LongSubtagsAccepted(n);
    assert ("en" + rest)[1..] == "n" + rest;
    assert ("n" + rest)[1..] == rest;
    assert rest[0] == '-';
    assert Span(rest, IsLetter) == 0;
    assert Span("n" + rest, IsLetter) == 1;
    assert Span("en" + rest, IsLetter) == 2;
    assert ("en" + rest)[2..] == rest;
  }

  lemma LongColumnRefused(s: Session, requestHash: string)
    requires |s.language| > 35
    ensures !SchemaAccepts(ToRow(s, requestHash))
  {}

  /** Start events the protocol accepts and the table refuses, for tags of any length beyond 35. */
  lemma LongLanguageRefusedBySchema(id: string, e: StartEvent, now: Time, n: nat, requestHash: string)
    requires CanonicalUuid(id) && ValidStart(e) && now != ZERO_TIME && n >= 17
    ensures var long := e.(language := "en" + LongSubtags(n));
            && ValidStart(long)
            && NewSession(id, id, id, long, now, 0).Ok?
            && !SchemaAccepts(ToRow(NewSession(id, id, id, long, now, 0).value, requestHash))
  {
    LongTagAccepted(n);
    var long := e.(language := "en" + LongSubtags(n));
    assert ValidStart(long);
    LongColumnRefused(NewSession(id, id, id, long, now, 0).value, requestHash);
  }

  /** Resuming a completed session replays exactly the stored transcript: replayCompleted
      normalises it again, accepts it and sends it unchanged, however the session got there. */
  lemma CompletedReplaysStoredResult(s: Session, ts: seq<Transition>)
    requires SessionInv(s) && Run(s, ts).state.Completed?
    ensures var done := Run(s, ts);
            NormalizeResult(StoredResult(done)) == StoredResult(done)
                && ValidResult(NormalizeResult(StoredResult(done)))
  {
    ReachableSessionInv(s, ts);
  }

  /** Interrupting and then resuming inside the window gives back the same session,
      except for the version and the update time. */
  lemma InterruptResumeRoundTrip(s: Session, e: ResumeEvent, at: Time, back: Time)
    requires SessionInv(s) && s.state.Streaming?
    requires at != ZERO_TIME && back != ZERO_TIME && at <= back
    requires ValidResume(e) && e.sessionId == s.id && e.lastAcknowledged < s.nextSequence
    requires at < s.expiresAt
    ensures var interrupted := Interrupt(s, at, DEFAULT_RECONNECT_WINDOW);
            && interrupted.Ok?
            && (Resume(interrupted.value, e, back).Ok? <==> back <= at + DEFAULT_RECONNECT_WINDOW && back < s.expiresAt)
            && (Resume(interrupted.value, e, back).Ok? ==>
                  Resume(interrupted.value, e, back).value == s.(version := s.version + 2, updatedAt := back))
  {}
}
