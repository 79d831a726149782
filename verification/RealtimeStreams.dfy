/** What one provider stream shows its client over a whole recording, and what the hub answers about
    a stream it manages. */
module RealtimeStreams {
  import opened Common
  import opened Strings
  import opened RealtimeSession
  import opened RealtimeProvider
  import opened RealtimeHub

  // ---------------------------------------------------------------------------
  // The stream
  // ---------------------------------------------------------------------------

  /** A stream can be opened for a session of a supported format, which every stored session has. */
  lemma EverySessionOpens(s: Session, segments: seq<Segment>, chinese: bool)
    ensures OpenStream(s, segments, chinese).Some? <==>
              && s.encoding == "pcm_s16le" && ValidSampleRate(s.sampleRateHz) && s.channels == 1
              && 20 <= s.frameDurationMs <= 100
    ensures SessionInv(s) ==> OpenStream(s, segments, chinese).Some?
  {}

  /** The stream after the frames have been offered to it, those it refuses included. */
  function Offered(p: Provider, frames: seq<AudioEvent>): (r: Provider)
    requires WellFormed(p)
    ensures WellFormed(r)
  {
    if frames == [] then p
    else
      var before := Offered(p, frames[..|frames| - 1]);
      match Push(before, frames[|frames| - 1], false)
      case Ok(taken) => taken.0
      case Err(_) => before
  }

  /** The stream's counters summarise the frames it has taken. */
  ghost predicate Remembers(p: Provider) {
    && WellFormed(p) && p.nextSequence == |p.pushed|
    && p.lastCapturedMs == (if p.pushed == [] then 0 else p.pushed[|p.pushed| - 1].capturedAtMs)
    && (forall f :: f in p.pushed ==> f.capturedAtMs >= 0)
  }

  /** The frame may come next: its number follows the frames taken, its time does not go back, and it
      has whole samples and fits. */
  predicate Follows(p: Provider, f: AudioEvent) {
    && f.sequence == |p.pushed| && 0 < PcmBytes(f) <= p.maxFrameBytes && PcmBytes(f) % 2 == 0
    && f.capturedAtMs >= (if p.pushed == [] then 0 else p.pushed[|p.pushed| - 1].capturedAtMs)
  }

  /** A push is taken exactly if the stream is open and the frame follows those it has taken; which
      error the others get. */
  lemma TakesExactlyTheNext(p: Provider, f: AudioEvent)
    requires Remembers(p)
    ensures Push(p, f, false).Ok? <==> !p.closed && !p.finished && Follows(p, f)
    ensures Push(p, f, false) == Err(ProviderConflict) <==> p.closed || p.finished
    ensures Push(p, f, false) == Err(ProviderGap) <==> !p.closed && !p.finished && f.sequence != |p.pushed|
    ensures Push(p, f, false) == Err(ProviderFrame) <==>
              !p.closed && !p.finished && f.sequence == |p.pushed| && !Follows(p, f)
    ensures Push(p, f, false).Ok? ==> Remembers(Push(p, f, false).value.0)
                                      && Push(p, f, false).value.0.pushed == p.pushed + [f]
    ensures Push(p, f, true) == Err(Canceled)
  {
    if Push(p, f, false).Ok? {
      var q := Push(p, f, false).value.0;
      assert q.pushed[|q.pushed| - 1] == f;
    }
  }

  /** How many segments have ended by the end of the last frame taken. */
  function EndedBy(segments: seq<Segment>, frames: seq<AudioEvent>, frameDurationMs: int): nat {
    if frames == [] then 0 else EmitThrough(segments, 0, frames[|frames| - 1].capturedAtMs + frameDurationMs)
  }

  /** No frame ends beyond 64 bits. */
  predicate EndsFit(frames: seq<AudioEvent>, frameDurationMs: int) {
    forall f :: f in frames ==> f.capturedAtMs + frameDurationMs <= MAX_INT64
  }

  ghost predicate Shows(p: Provider) {
    Remembers(p) && p.emitted == EndedBy(p.segments, p.pushed, p.frameDurationMs)
  }

  /** From p to q the first n segments become visible: by an update that shows all of them, joined,
      under the next revision and through the end of the last, if that is more than before. */
  predicate Reveals(p: Provider, q: Provider, u: Option<Update>, n: nat) {
    && p.emitted <= n <= |p.segments| && q.emitted == n && (u.Some? <==> p.emitted < n)
    && q.revision == p.revision + (if u.Some? then 1 else 0)
    && (u.Some? ==> u.value == Update(q.revision, JoinText(p.segments[..n], p.chinese), p.segments[n - 1].endMs))
  }

  lemma TakeReveals(p: Provider, f: AudioEvent)
    requires WellFormed(p)
    ensures Reveals(p, Take(p, f).0, Take(p, f).1,
                    EmitThrough(p.segments, p.emitted, EndOfFrame(f.capturedAtMs, p.frameDurationMs)))
  {}

  lemma EmitsWhatEnded(p: Provider, f: AudioEvent)
    requires Shows(p) && Follows(p, f) && EndsFit([f], p.frameDurationMs) && p.frameDurationMs >= 0
    ensures EmitThrough(p.segments, p.emitted, EndOfFrame(f.capturedAtMs, p.frameDurationMs))
            == EmitThrough(p.segments, 0, f.capturedAtMs + p.frameDurationMs)
  {
    assert f in [f];
    var end := f.capturedAtMs + p.frameDurationMs;
    assert EndOfFrame(f.capturedAtMs, p.frameDurationMs) == end;
    if p.pushed != [] {
      EmissionIsPathIndependent(p.segments, 0, p.pushed[|p.pushed| - 1].capturedAtMs + p.frameDurationMs, end);
    }
  }

  lemma TakeShows(p: Provider, f: AudioEvent)
    requires Shows(p) && p.frameDurationMs >= 0 && Push(p, f, false).Ok? && EndsFit([f], p.frameDurationMs)
    ensures var q := Push(p, f, false).value.0;
            && Shows(q)
            && Reveals(p, q, Push(p, f, false).value.1,
                       EmitThrough(p.segments, 0, f.capturedAtMs + p.frameDurationMs))
  {
    TakesExactlyTheNext(p, f);
    TakeReveals(p, f);
    EmitsWhatEnded(p, f);
    var q := Push(p, f, false).value.0;
    assert q.pushed[|q.pushed| - 1] == f;
  }

  /** Over every sequence of frames offered to a new stream: what it has shown is exactly the segments
      that ended by the end of the last frame it took, however the audio was divided and whatever was
      refused on the way. */
  lemma {:induction false} ShowsWhatEnded(s: Session, segments: seq<Segment>, chinese: bool, frames: seq<AudioEvent>)
    requires OpenStream(s, segments, chinese).Some? && EndsFit(frames, s.frameDurationMs)
    ensures var p := Offered(OpenStream(s, segments, chinese).value, frames);
            && Shows(p) && p.segments == segments && p.chinese == chinese && p.frameDurationMs == s.frameDurationMs
            && (forall f :: f in p.pushed ==> f in frames) && !p.closed && !p.finished
    decreases |frames|
  {
    var p := OpenStream(s, segments, chinese).value;
    if frames != [] {
      var init, f := frames[..|frames| - 1], frames[|frames| - 1];
      ShowsWhatEnded(s, segments, chinese, init);
      var before := Offered(p, init);
      if Push(before, f, false).Ok? {
        assert EndsFit([f], s.frameDurationMs);
        TakeShows(before, f);
        TakesExactlyTheNext(before, f);
      }
    }
  }

  /** And the update a frame causes shows exactly the segments that ended by its own end. */
  lemma UpdateShowsWhatEnded(s: Session, segments: seq<Segment>, chinese: bool, frames: seq<AudioEvent>, f: AudioEvent)
    requires OpenStream(s, segments, chinese).Some? && EndsFit(frames + [f], s.frameDurationMs)
    ensures var p := Offered(OpenStream(s, segments, chinese).value, frames);
            && p.segments == segments && p.chinese == chinese
            && (Push(p, f, false).Ok? ==>
                  Reveals(p, Push(p, f, false).value.0, Push(p, f, false).value.1,
                          EmitThrough(segments, 0, f.capturedAtMs + s.frameDurationMs)))
  {
    assert forall g :: g in frames + [f] <==> g in frames || g == f;
    ShowsWhatEnded(s, segments, chinese, frames);
    var p := Offered(OpenStream(s, segments, chinese).value, frames);
    if Push(p, f, false).Ok? {
      TakeShows(p, f);
    }
  }

  /** A stream can be finished once, after at least one frame, and takes nothing afterwards. */
  lemma FinishesOnce(p: Provider, f: AudioEvent, canceled: bool)
    requires Remembers(p)
    ensures Finish(p, canceled).1.None? <==> !canceled && !p.closed && !p.finished && p.pushed != []
    ensures Finish(p, canceled).1.None? ==>
              var q := Finish(p, canceled).0;
              && q.pushed == p.pushed && Push(q, f, false) == Err(ProviderConflict)
              && Finish(q, false).1 == Some(ProviderConflict)
    ensures Finish(p, canceled).1.Some? ==>
              Finish(p, canceled).0.finished == p.finished
              && Finish(p, canceled).1.value == (if canceled then Canceled else ProviderConflict)
  {}

  /** What a connection passes on of the updates its pushes return, whatever provider made them: each
      that is valid against the last one passed on, up to the first that is not. */
  function Relayed(pushes: seq<(AudioEvent, Option<Update>)>, lastRevision: int, frameDurationMs: int): seq<Update> {
    if pushes == [] then []
    else
      var f, u := pushes[0].0, pushes[0].1;
      if u.None? then Relayed(pushes[1..], lastRevision, frameDurationMs)
      else if !ValidUpdate(u.value, lastRevision, f, frameDurationMs) then []
      else [u.value] + Relayed(pushes[1..], u.value.revision, frameDurationMs)
  }

  /** An update that speaks of nothing after its frame, in a transcript of bounded size. */
  ghost predicate Timely(pushes: seq<(AudioEvent, Option<Update>)>, u: Update, frameDurationMs: int) {
    && Utf8Length(u.text) <= 256 * 1024 && 0 <= u.finalThroughMs && 0 < frameDurationMs
    && exists k :: 0 <= k < |pushes| && pushes[k].1 == Some(u)
                   && u.finalThroughMs <= EndOfFrame(pushes[k].0.capturedAtMs, frameDurationMs)
  }

  predicate Rising(updates: seq<Update>, lastRevision: int) {
    && (forall i :: 0 <= i < |updates| ==> updates[i].revision > lastRevision)
    && (forall i, j :: 0 <= i < j < |updates| ==> updates[i].revision < updates[j].revision)
  }

  lemma RisesFrom(u: Update, rest: seq<Update>, lastRevision: int)
    requires u.revision > lastRevision && Rising(rest, u.revision)
    ensures Rising([u] + rest, lastRevision)
  {
    var all := [u] + rest;
    assert forall i :: 0 < i < |all| ==> all[i] == rest[i - 1];
  }

  lemma LaterIsTimely(pushes: seq<(AudioEvent, Option<Update>)>, u: Update, frameDurationMs: int)
    requires pushes != [] && Timely(pushes[1..], u, frameDurationMs)
    ensures Timely(pushes, u, frameDurationMs)
  {
    var k :| 0 <= k < |pushes| - 1 && pushes[1..][k].1 == Some(u)
             && u.finalThroughMs <= EndOfFrame(pushes[1..][k].0.capturedAtMs, frameDurationMs);
    assert pushes[k + 1] == pushes[1..][k];
  }

  /** No provider can make a client see revisions out of order or text beyond the audio it sent. */
  lemma {:induction false} ClientsSeeRevisionsRise(pushes: seq<(AudioEvent, Option<Update>)>, lastRevision: int,
                                                   frameDurationMs: int)
    ensures var r := Relayed(pushes, lastRevision, frameDurationMs);
            Rising(r, lastRevision) && forall u :: u in r ==> Timely(pushes, u, frameDurationMs)
    decreases |pushes|
  {
    if pushes != [] {
      var f, u := pushes[0].0, pushes[0].1;
      var last := if u.None? then lastRevision else u.value.revision;
      ClientsSeeRevisionsRise(pushes[1..], last, frameDurationMs);
      var rest := Relayed(pushes[1..], last, frameDurationMs);
      forall v | v in rest
        ensures Timely(pushes, v, frameDurationMs)
      {
        LaterIsTimely(pushes, v, frameDurationMs);
      }
      if u.Some? && ValidUpdate(u.value, lastRevision, f, frameDurationMs) {
        RisesFrom(u.value, rest, lastRevision);
        assert Timely(pushes, u.value, frameDurationMs);
      }
    }
  }

  // ---------------------------------------------------------------------------
  // The hub
  // ---------------------------------------------------------------------------

  /** A stream nobody holds is handed out under the next number while it is open and in time; the
      answer tells a held one from one that is gone. */
  lemma ResumeAnswers(e: Entry, now: Time)
    requires EntryInv(e)
    ensures var gone := e.ended || now >= e.expiresAt
            || (!e.attached && e.reconnectBy != ZERO_TIME && now > e.reconnectBy);
            && (ResumeEntry(e, now) == Err(Unavailable) <==> gone)
            && (ResumeEntry(e, now) == Err(HubError.Attached) <==> !gone && e.attached)
            && (ResumeEntry(e, now).Ok? ==> Usable(ResumeEntry(e, now).value, e.lease + 1))
  {}

  /** The holder of the current lease, and nobody else, can push, detach and finish; only its number
      is needed to close. What the others are told. */
  lemma LeaseAnswers(e: Entry, lease: nat, f: AudioEvent, deadline: Time, canceled: bool)
    requires EntryInv(e)
    ensures PushEntry(e, lease, f, canceled) == Err(Stale) <==> !Usable(e, lease)
    ensures PushEntry(e, lease, f, canceled) == Err(Unavailable) <==> Usable(e, lease) && e.ended
    ensures DetachEntry(e, lease, deadline).Ok? <==> deadline != ZERO_TIME && Usable(e, lease)
    ensures DetachEntry(e, lease, deadline).Err? ==> DetachEntry(e, lease, deadline).error.Stale?
    ensures FinishEntry(e, lease, canceled).Ok? <==> Usable(e, lease)
    ensures FinishEntry(e, lease, canceled).Err? ==> FinishEntry(e, lease, canceled).error.Stale?
    ensures CloseEntry(e, lease).Ok? <==> !e.closed && e.lease == lease
    ensures CloseEntry(e, lease).Err? ==> CloseEntry(e, lease).error.Stale?
  {}

  /** Finishing ends the stream for everyone, whatever the provider says. */
  lemma FinishEndsTheStream(e: Entry, lease: nat, canceled: bool, now: Time)
    requires EntryInv(e) && FinishEntry(e, lease, canceled).Ok?
    ensures var u := FinishEntry(e, lease, canceled).value;
            && !Usable(u.0, lease) && ResumeEntry(u.0, now) == Err(Unavailable) && ReapEntry(u.0, now) == u.0
            && CloseEntry(u.0, lease) == Err(Stale)
            && u.1 == Finish(e.stream, canceled).1
  {}

  /** Every lease that is handed out is on record, in the order of handing out. */
  lemma GrantsAreIssued(h: Hub, op: HubOp)
    requires HubInv(h) && RealtimeHub.Possible(h, op)
    ensures op.Resume? && ResumeEntry(h.entries[op.entry], op.now).Ok? ==>
              HubStep(h, op).issued == h.issued + [Handle(op.entry, h.entries[op.entry].lease + 1)]
    ensures op.Publish? && op.sessionId !in h.streams ==> HubStep(h, op).issued == h.issued + [Handle(|h.entries|, 1)]
    ensures (op.Publish? && op.sessionId in h.streams) || (!op.Publish? && !op.Resume?) ==>
            HubStep(h, op).issued == h.issued
  {}
}
