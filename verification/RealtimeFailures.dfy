/** Where a connection goes when something is refused, lost or broken, with which code a session
    fails, and that a failure is recorded and its stream closed. */
module RealtimeFailures {
  import opened Common
  import opened RealtimeSession
  import opened RealtimeProvider
  import opened RealtimeHub
  import opened RealtimeProtocol

  // ---------------------------------------------------------------------------
  // Refused events
  // ---------------------------------------------------------------------------

  /** The session refuses the event for what it says, and not because it is over or another's. */
  predicate Correctable(e: Error) { e == SequenceGap || e == FinalSequence || e == InvalidEvent }

  /** A connection goes on as if nothing had been sent when a frame or a finish is refused for what it
      says; a connection whose frame is too long, or whose session is over or another's, leaves. */
  lemma RefusedEvents(w: World, c: nat, a: Action)
    requires Ready(w, c, a) && (a.ReadAudio? || a.ReadFinish?)
    ensures var k, row := w.connections[c], w.row.value;
            var refused := if a.ReadAudio? then ApplyAudio(row, a.event, a.now).Err?
                           else BeginFinalization(row, a.finish, a.now).Err?;
            refused ==>
              var e := if a.ReadAudio? then ApplyAudio(row, a.event, a.now).error
                       else BeginFinalization(row, a.finish, a.now).error;
              Next(w, c, a) == if Correctable(e) then w else Put(w, c, Retaining(k.handle))
  {
    assert w.connections[c := w.connections[c]] == w.connections;
  }

  // ---------------------------------------------------------------------------
  // Lost and broken saves
  // ---------------------------------------------------------------------------

  /** A save that another connection came before changes neither row nor streams. An audio save is tried
      three times in all and then given up, which the client is told; a finish is given up at once; a
      resume lets the stream go until the old deadline; an interruption and a failure close it; a
      completion fails the session. */
  lemma LostSaves(w: World, c: nat, clock: Time)
    requires Ready(w, c, Save(clock)) && w.row.value.version != w.connections[c].snapshot.version
    ensures var k := w.connections[c];
            Next(w, c, Save(clock)) == Put(w, c,
              if k.holding.None? then Done
              else
                var h := k.holding.value;
                match k.purpose
                case ForAudio(revision, e, attempt) =>
                  if attempt == 0 || attempt == 1 then Retrying(h, revision, e, attempt + 1) else Serving(h, revision)
                case ForFinish(revision) => Serving(h, revision)
                case ForResume(release) => Detaching(h, release)
                case ForComplete => Failing(Some(h), "internal_error")
                case ForInterrupt => Closing(h)
                case ForFailure => Closing(h))
  {}

  /** The lease a connection holds is still held where a breakdown of the database leaves it, and it is
      served no more: it will interrupt the session, let the stream go or close it. */
  lemma BreakdownsLeave(w: World, c: nat)
    requires Ready(w, c, Breakdown)
    ensures var k, next := w.connections[c], Next(w, c, Breakdown).connections[c];
            && Next(w, c, Breakdown) == Put(w, c, next)
            && (Held(k).Some? ==> Held(next) == Held(k)) && (Held(k).None? ==> next == Done)
            && !next.Serving? && !next.Retrying? && !next.Pushing? && !next.Saving?
            && (next.Retaining? <==> k.Serving? || k.Retrying?
                                     || (k.Saving? && k.holding.Some? && (k.purpose.ForAudio? || k.purpose.ForFinish?)))
            && (next.Failing? <==> k.Completing? || (k.Saving? && k.holding.Some? && k.purpose.ForComplete?))
            && (next.Failing? ==> next.code == "internal_error")
            && (next.Detaching? <==> k.Leased? || (k.Saving? && k.holding.Some? && k.purpose.ForResume?))
  {}

  // ---------------------------------------------------------------------------
  // Failures
  // ---------------------------------------------------------------------------

  /** The provider took the frame or the finish, and what it returned is no valid update or result. */
  predicate Rejected(w: World, c: nat, a: Action)
    requires Ready(w, c, a)
  {
    match a
    case SendFrame(canceled) =>
      var k := w.connections[c];
      var r := PushEntry(w.entries[k.handle.entry], k.handle.lease, k.event, canceled);
      r.Ok? && r.value.1.Some? && !ValidUpdate(r.value.1.value, k.revision, k.event, w.row.value.frameDurationMs)
    case FinishLease(canceled, result) =>
      var h := w.connections[c].handle;
      var r := FinishEntry(w.entries[h.entry], h.lease, canceled);
      r.Ok? && r.value.1.None? && !ValidResult(NormalizeResult(result))
    case _ => false
  }

  /** The code says why: the stream was not there to resume, the provider returned nonsense, the result
      could not be stored, or else the provider could not be opened or refused. Every code is one that a
      session accepts. */
  lemma WhyItFails(w: World, c: nat, a: Action)
    requires Ready(w, c, a) && (c in w.connections ==> !w.connections[c].Failing?)
             && Next(w, c, a).connections[c].Failing?
    ensures var code := Next(w, c, a).connections[c].code;
            && SafeErrorCode(code)
            && (code == "stream_timeout" <==> a.FindStream? || a.Reattach?)
            && (code == "provider_rejected" <==> Rejected(w, c, a))
            && (code == "internal_error" <==> a.ReadComplete? || a.Save? || a.Breakdown?)
            && (code == "provider_unavailable" <==>
                  a.LookUp? || a.Open? || ((a.SendFrame? || a.FinishLease?) && !Rejected(w, c, a)))
  {}

  /** A session fails to open exactly if it is over, its provider fails, or a stream is registered for it. */
  lemma OpensExactly(w: World, c: nat, now: Time, openFails: bool)
    requires Ready(w, c, Open(now, openFails)) && SessionInv(w.connections[c].session)
    ensures var s := w.connections[c].session;
            && (Next(w, c, Open(now, openFails)).connections[c].Serving? <==>
                  now != ZERO_TIME && now < s.expiresAt && !openFails && w.registered.None?)
            && (!Next(w, c, Open(now, openFails)).connections[c].Serving? ==>
                  && Next(w, c, Open(now, openFails)).connections[c] == Failing(None, "provider_unavailable")
                  && Next(w, c, Open(now, openFails)).registered == w.registered
                  && forall i :: |w.entries| <= i < |Next(w, c, Open(now, openFails)).entries| ==>
                       Next(w, c, Open(now, openFails)).entries[i].closed)
  {}

  lemma FailureIsRead(w: World, c: nat, h: Handle, code: string)
    requires c in w.connections && w.connections[c] == Failing(Some(h), code) && w.row.Some?
    requires !Terminal(w.row.value.state) && SafeErrorCode(code)
    ensures Ready(w, c, ReadFailure) && Fail(w.row.value, code).Ok?
    ensures Next(w, c, ReadFailure)
            == Put(w, c, Saving(Some(h), ForFailure, w.row.value, Fail(w.row.value, code).value))
  {}

  lemma FailureIsSaved(w: World, c: nat, h: Handle, row: Session, u: Session, clock: Time)
    requires c in w.connections && w.connections[c] == Saving(Some(h), ForFailure, row, u) && w.row == Some(row)
    requires u.version == row.version + 1
    ensures Ready(w, c, Save(clock))
    ensures Next(w, c, Save(clock)) == Put(w, c, Closing(h)).(row := Some(Stamped(u, clock)))
  {}

  /** A connection that fails its session, undisturbed, records the code in the row and closes the stream
      it holds. */
  lemma FailureIsRecorded(w: World, c: nat, h: Handle, code: string, clock: Time) returns (m: World, n: World, v: World)
    requires c in w.connections && w.connections[c] == Failing(Some(h), code) && w.row.Some? && h.entry < |w.entries|
    requires !Terminal(w.row.value.state) && SafeErrorCode(code)
    requires !w.entries[h.entry].closed && w.entries[h.entry].lease == h.lease
    ensures Ready(w, c, ReadFailure) && m == Next(w, c, ReadFailure)
    ensures Ready(m, c, Save(clock)) && n == Next(m, c, Save(clock))
    ensures Ready(n, c, CloseLease) && v == Next(n, c, CloseLease)
    ensures v.row.Some? && v.row.value.state.Failed? && v.row.value.lastErrorCode == code && v.frames == w.frames
    ensures c in v.connections && v.connections[c] == Done
    ensures |v.entries| == |w.entries| && v.entries[h.entry].closed && v.entries[h.entry].stream.closed
  {
    FailureIsRead(w, c, h, code);
    m := Next(w, c, ReadFailure);
    FailureIsSaved(m, c, h, w.row.value, Fail(w.row.value, code).value, clock);
    n := Next(m, c, Save(clock));
    v := Next(n, c, CloseLease);
  }
}
