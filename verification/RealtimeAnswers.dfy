/** What the answers of a recording session tell the client: which frames are stored, what a finish
    and a resume must name, and whose result a completed session holds. Everything is said in terms
    of the frames the session has accepted, not of its counters. */
module RealtimeAnswers {
  import opened Common
  import opened Strings
  import opened RealtimeSession

  // ---------------------------------------------------------------------------
  // Audio
  // ---------------------------------------------------------------------------

  /** The frame is well formed, meant for this session and in time. */
  predicate Admissible(s: Session, e: AudioEvent, now: Time) {
    ValidAudio(e) && e.sessionId == s.id && now != ZERO_TIME && now < s.expiresAt
  }

  /** Some of the frames has the number. */
  ghost predicate Numbered(frames: seq<AudioEvent>, n: int) { exists i :: 0 <= i < |frames| && frames[i].sequence == n }

  /** The frame may come next: its number follows the last one, its capture time does not go back
      and it fits. */
  predicate Continues(s: Session, frames: seq<AudioEvent>, e: AudioEvent) {
    && e.sequence == |frames| && PcmBytes(e) <= MaximumFrameBytes(s)
    && (frames != [] ==> frames[|frames| - 1].capturedAtMs <= e.capturedAtMs)
  }

  lemma NumberedIffBelow(s: Session, frames: seq<AudioEvent>, n: int)
    requires Counts(s, frames)
    ensures Numbered(frames, n) <==> 0 <= n < |frames|
  {
    if 0 <= n < |frames| {
      assert frames[n].sequence == n;
    }
  }

  /** An admissible frame is answered as a duplicate exactly if its number is stored already, as a gap
      exactly if numbers before it are missing, and accepted exactly if it comes next. */
  lemma AnswersTellWhatIsStored(s: Session, frames: seq<AudioEvent>, e: AudioEvent, now: Time)
    requires Counts(s, frames) && s.state.Streaming? && Admissible(s, e, now)
    ensures ApplyAudio(s, e, now) == Ok((s, Duplicate)) <==> Numbered(frames, e.sequence)
    ensures ApplyAudio(s, e, now) == Err(SequenceGap) <==> e.sequence > |frames|
    ensures (ApplyAudio(s, e, now).Ok? && ApplyAudio(s, e, now).value.1.Accepted?) <==> Continues(s, frames, e)
    ensures ApplyAudio(s, e, now).Ok? && ApplyAudio(s, e, now).value.1.Duplicate? ==> ApplyAudio(s, e, now).value.0 == s
  {
    NumberedIffBelow(s, frames, e.sequence);
  }

  /** Any other frame is refused, with the first thing that is wrong. */
  lemma InadmissibleIsRefused(s: Session, e: AudioEvent, now: Time)
    requires !s.state.Streaming? || !Admissible(s, e, now)
    ensures ApplyAudio(s, e, now).Err?
    ensures ApplyAudio(s, e, now).error.StateConflict? <==> !s.state.Streaming?
    ensures s.state.Streaming? ==>
              && (ApplyAudio(s, e, now).error.InvalidEvent? <==> !ValidAudio(e) || now == ZERO_TIME)
              && (ApplyAudio(s, e, now).error.SessionExpired? ==> now >= s.expiresAt && e.sessionId == s.id)
              && (ApplyAudio(s, e, now).error.SessionMismatch? ==> e.sessionId != s.id)
  {}

  lemma {:induction false} AcceptedFramesAreOurs(s: Session, ts: seq<Transition>, f: AudioEvent)
    requires s.nextSequence == 0 && s.receivedBytes == 0 && f in AcceptedFrames(s, ts)
    ensures ValidAudio(f) && f.sessionId == s.id
    decreases |ts|
  {
    var init, t := ts[..|ts| - 1], ts[|ts| - 1];
    CountersMatchAcceptedFrames(s, init);
    if f in AcceptedFrames(s, init) {
      AcceptedFramesAreOurs(s, init, f);
    } else {
      assert f == t.audio && ApplyAudio(Run(s, init), f, t.now).Ok?;
    }
  }

  /** Whatever has happened since, a frame that was accepted and is sent again is acknowledged as a
      duplicate and changes nothing. */
  lemma ResentFrameIsDuplicate(s: Session, ts: seq<Transition>, e: AudioEvent, now: Time)
    requires s.nextSequence == 0 && s.receivedBytes == 0 && e in AcceptedFrames(s, ts)
    requires Run(s, ts).state.Streaming? && now != ZERO_TIME && now < Run(s, ts).expiresAt
    ensures ApplyAudio(Run(s, ts), e, now) == Ok((Run(s, ts), Duplicate))
  {
    CountersMatchAcceptedFrames(s, ts);
    AcceptedFramesAreOurs(s, ts, e);
    var frames := AcceptedFrames(s, ts);
    var i :| 0 <= i < |frames| && frames[i] == e;
    assert Numbered(frames, e.sequence);
    AnswersTellWhatIsStored(Run(s, ts), frames, e, now);
  }

  /** And the other way round: a duplicate was accepted before under its number, and a gap means that
      no frame of this number was, nor the one before it. */
  lemma AnswersAreTrue(s: Session, ts: seq<Transition>, e: AudioEvent, now: Time)
    requires s.nextSequence == 0 && s.receivedBytes == 0
    ensures var answer, frames := ApplyAudio(Run(s, ts), e, now), AcceptedFrames(s, ts);
            && (answer.Ok? && answer.value.1.Duplicate? ==> Numbered(frames, e.sequence))
            && (answer.Ok? && answer.value.1.Accepted? ==> !Numbered(frames, e.sequence) && e.sequence == |frames|)
            && (answer == Err(SequenceGap) ==>
                  e.sequence > |frames| && !Numbered(frames, e.sequence) && !Numbered(frames, e.sequence - 1))
  {
    CountersMatchAcceptedFrames(s, ts);
    var u, frames := Run(s, ts), AcceptedFrames(s, ts);
    if u.state.Streaming? && Admissible(u, e, now) {
      AnswersTellWhatIsStored(u, frames, e, now);
      NumberedIffBelow(u, frames, e.sequence);
      NumberedIffBelow(u, frames, e.sequence - 1);
    } else {
      InadmissibleIsRefused(u, e, now);
    }
  }

  // ---------------------------------------------------------------------------
  // Finish and resume
  // ---------------------------------------------------------------------------

  /** The event names the last accepted frame, or none if there is none. */
  predicate NamesLast(frames: seq<AudioEvent>, n: int) {
    if frames == [] then n == -1 else n == frames[|frames| - 1].sequence
  }

  /** A finish is accepted exactly if it names the last stored frame and its duration covers it; the
      archive's digest and duration are stored and the counters kept. */
  lemma FinishNamesTheLastFrame(s: Session, frames: seq<AudioEvent>, e: FinishEvent, now: Time)
    requires Counts(s, frames) && (frames == [] ==> s.lastCapturedAtMs == 0)
    ensures BeginFinalization(s, e, now).Ok? <==>
              && (s.state.Streaming? || s.state.Interrupted?) && ValidFinish(e) && e.sessionId == s.id
              && now != ZERO_TIME && now < s.expiresAt && NamesLast(frames, e.finalSequence)
              && (frames != [] ==> frames[|frames| - 1].capturedAtMs <= e.capturedDurationMs)
    ensures BeginFinalization(s, e, now) == Err(FinalSequence) <==>
              && (s.state.Streaming? || s.state.Interrupted?) && ValidFinish(e) && e.sessionId == s.id
              && now != ZERO_TIME && !NamesLast(frames, e.finalSequence)
    ensures BeginFinalization(s, e, now).Ok? ==>
              var u := BeginFinalization(s, e, now).value;
              && u.state.Finalizing? && u.archiveSha256 == e.archiveSha256
              && u.capturedDurationMs == e.capturedDurationMs && Counts(u, frames)
  {}

  /** A client may resume exactly if the last frame it saw acknowledged is stored, or it saw none, and
      it comes back in time. */
  lemma ResumeNamesAStoredFrame(s: Session, frames: seq<AudioEvent>, e: ResumeEvent, now: Time)
    requires SessionInv(s) && Counts(s, frames) && s.state.Interrupted?
    ensures RealtimeSession.Resume(s, e, now) == Err(SequenceGap) <==>
              && ValidResume(e) && e.sessionId == s.id && now != ZERO_TIME
              && e.lastAcknowledged != -1 && !Numbered(frames, e.lastAcknowledged)
    ensures RealtimeSession.Resume(s, e, now).Ok? <==>
              && ValidResume(e) && e.sessionId == s.id && now != ZERO_TIME
              && (e.lastAcknowledged == -1 || Numbered(frames, e.lastAcknowledged))
              && now <= s.reconnectBy.value && now < s.expiresAt
  {
    NumberedIffBelow(s, frames, e.lastAcknowledged);
  }

  // ---------------------------------------------------------------------------
  // Completion and the other ends
  // ---------------------------------------------------------------------------

  /** What was recorded: the counters and the archive. */
  predicate SameRecording(s: Session, u: Session) {
    && u.nextSequence == s.nextSequence && u.receivedBytes == s.receivedBytes
    && u.lastCapturedAtMs == s.lastCapturedAtMs && u.archiveSha256 == s.archiveSha256
    && u.capturedDurationMs == s.capturedDurationMs && u.lastFrameAt == s.lastFrameAt
  }

  /** Completion stores the result it was given, trimmed, field by field, and keeps the recording. */
  lemma CompletionStoresItsResult(s: Session, r: ProviderResult, now: Time)
    ensures Complete(s, r, now).Ok? <==>
              && s.state.Finalizing? && now != ZERO_TIME
              && 0 < |TrimSpace(r.text)| && Utf8Length(TrimSpace(r.text)) <= MAX_TRANSCRIPT_BYTES
              && LanguageTag(TrimSpace(r.language)) && ProviderId(TrimSpace(r.providerId))
    ensures Complete(s, r, now).Ok? ==>
            var u := Complete(s, r, now).value;
            && u.state.Completed? && u.completedAt == Some(now) && SameRecording(s, u)
            && u.finalTranscript == TrimSpace(r.text) && u.finalLanguage == TrimSpace(r.language)
            && u.finalProviderId == TrimSpace(r.providerId)
  {}

  /** Only a completion completes a session. */
  lemma OnlyCompletionCompletes(s: Session, t: Transition)
    requires !s.state.Completed? && After(s, t).state.Completed?
    ensures t.Completion? && Complete(s, t.result, t.now) == Ok(After(s, t))
  {}

  /** A completed session holds the trimmed result of a completion in its history. */
  lemma {:induction false} CompletedHoldsAGivenResult(s: Session, ts: seq<Transition>) returns (i: nat)
    requires !s.state.Completed? && Run(s, ts).state.Completed?
    ensures i < |ts| && ts[i].Completion?
    ensures var done, r := Run(s, ts), ts[i].result;
            && done.finalTranscript == TrimSpace(r.text) && done.finalLanguage == TrimSpace(r.language)
            && done.finalProviderId == TrimSpace(r.providerId)
    decreases |ts|
  {
    var init, t := ts[..|ts| - 1], ts[|ts| - 1];
    if Run(s, init).state.Completed? {
      i := CompletedHoldsAGivenResult(s, init);
      assert ts[i] == init[i];
    } else {
      OnlyCompletionCompletes(Run(s, init), t);
      CompletionStoresItsResult(Run(s, init), t.result, t.now);
      i := |ts| - 1;
    }
  }

  /** A session fails exactly while it is not over and with a code that is safe to show, which it
      then carries; it expires exactly from its deadline on; both keep the recording. */
  lemma FailureAndExpiry(s: Session, code: string, now: Time)
    requires SessionInv(s)
    ensures Fail(s, code).Ok? <==> !Terminal(s.state) && SafeErrorCode(code)
    ensures Fail(s, code).Ok? ==>
              Fail(s, code).value.state.Failed? && Fail(s, code).value.lastErrorCode == code
              && SameRecording(s, Fail(s, code).value)
    ensures Expire(s, now).Ok? <==> !Terminal(s.state) && now >= s.expiresAt
    ensures Expire(s, now).Ok? ==> Expire(s, now).value.state.Expired? && SameRecording(s, Expire(s, now).value)
  {}

  /** A session can be started for well-formed identifiers and a valid event, for at most two hours.
      It belongs to its creator, has the client's format and ends in time. */
  lemma NewSessionIsTheClients(id: string, workspaceId: string, createdBy: string, e: StartEvent, now: Time, ttl: int)
    ensures NewSession(id, workspaceId, createdBy, e, now, ttl).Ok? <==>
              && CanonicalUuid(id) && CanonicalUuid(workspaceId) && CanonicalUuid(createdBy) && ValidStart(e)
              && now != ZERO_TIME && 0 <= ttl <= 2 * HOUR
    ensures NewSession(id, workspaceId, createdBy, e, now, ttl).Ok? ==>
            var s := NewSession(id, workspaceId, createdBy, e, now, ttl).value;
            && s.id == id && s.workspaceId == workspaceId && s.createdBy == createdBy
            && s.clientSessionId == e.clientSessionId && s.idempotencyKey == e.idempotencyKey
            && s.encoding == e.encoding && s.sampleRateHz == e.sampleRateHz && s.channels == e.channels
            && s.frameDurationMs == e.frameDurationMs && s.language == e.language
            && s.state.Streaming? && Counts(s, []) && s.version == 1 && s.startedAt == s.updatedAt == now
            && s.expiresAt == now + (if ttl == 0 then DEFAULT_SESSION_TTL else ttl)
  {}

  /** A frame of a session may hold exactly the bytes of its duration: two for each sample. The
      limits on the size of a frame, at the start and in each session, never matter. */
  lemma FrameLimitIsOneFrame(s: Session)
    requires SessionInv(s)
    ensures 1000 * MaximumFrameBytes(s) == 2 * s.sampleRateHz * s.frameDurationMs
    ensures 0 < MaximumFrameBytes(s) < MAX_FRAME_BYTES
  {
    WholeBytes(s.sampleRateHz, s.channels, s.frameDurationMs);
  }

  lemma WholeBytes(rate: int, channels: int, ms: int)
    requires ValidSampleRate(rate) && channels == 1 && 20 <= ms <= 100
    ensures var bytes := rate * channels * 2 * ms / 1000;
            1000 * bytes == 2 * rate * ms && 0 < bytes < MAX_FRAME_BYTES
  {
    var kilohertz := rate / 1000;
    assert rate * channels * 2 * ms == 2000 * kilohertz * ms;
  }

  // ---------------------------------------------------------------------------
  // Interruption
  // ---------------------------------------------------------------------------

  /** A streaming session in time can be interrupted, for at most ten minutes. The client can then
      resume until the window or the session ends, ninety seconds if nothing else is said, and finds
      the session as it left it. */
  lemma InterruptionCanBeResumed(s: Session, now: Time, window: int, e: ResumeEvent, later: Time)
    requires SessionInv(s)
    ensures Interrupt(s, now, window).Ok? <==>
              s.state.Streaming? && now != ZERO_TIME && 0 <= window <= 10 * MINUTE && now < s.expiresAt
    ensures Interrupt(s, now, window).Ok? ==>
              var u := Interrupt(s, now, window).value;
              && u.state.Interrupted? && u.interruptedAt == Some(now) && SameRecording(s, u)
              && (RealtimeSession.Resume(u, e, later).Ok? <==>
                    && ValidResume(e) && e.sessionId == s.id && later != ZERO_TIME
                    && e.lastAcknowledged < s.nextSequence && later < s.expiresAt
                    && later <= now + (if window == 0 then 90 * SECOND else window))
              && (RealtimeSession.Resume(u, e, later).Ok? ==>
                    RealtimeSession.Resume(u, e, later).value == s.(updatedAt := later, version := s.version + 2))
  {}

  /** The time of a change is kept with it: every change but failure and expiry sets the time of the
      last one, a frame also that of the last frame, an interruption and a completion their own. */
  lemma ChangesAreStamped(s: Session, t: Transition)
    requires SessionInv(s) && After(s, t) != s
    ensures var u := After(s, t);
            && u.updatedAt == (if t.Failure? || t.Expiry? then s.updatedAt else t.now)
            && u.lastFrameAt == (if t.Audio? then Some(t.now) else s.lastFrameAt)
            && u.completedAt == (if t.Completion? then Some(t.now) else s.completedAt)
            && u.interruptedAt == (if t.Interruption? then Some(t.now) else None)
            && (u.reconnectBy.Some? <==> t.Interruption?)
            && u.startedAt == s.startedAt && u.expiresAt == s.expiresAt && u.version == s.version + 1
  {}
}
