/** What a client is promised: a recording that follows the protocol, with any number of frames and
    interruptions, and that nobody else disturbs, reaches the provider whole and ends completed. */
module RealtimeRecording {
  import opened Common
  import opened RealtimeSession
  import opened RealtimeProvider
  import opened RealtimeHub
  import opened RealtimeProtocol
  import RealtimeAnswers
  import RealtimeRuns
  import opened QuickResume

  // ---------------------------------------------------------------------------
  // A recording
  // ---------------------------------------------------------------------------

  /** The client sends the next frame; or one out of order, as after a pause, when it does not know what
      has arrived; or it goes away, and comes back on another connection. The times are the clocks that
      the steps read. */
  datatype Turn =
    | Speak(event: AudioEvent, now: Time, clock: Time)
    | Stray(event: AudioEvent, now: Time)
    | Pause(now: Time, clock: Time, resume: ResumeEvent, found: Time, back: Time, saved: Time)

  /** The frames of the turns. */
  function Spoken(turns: seq<Turn>): seq<AudioEvent> {
    if turns == [] then []
    else Spoken(turns[..|turns| - 1]) + Added(turns[|turns| - 1])
  }

  function Added(t: Turn): seq<AudioEvent> { if t.Speak? then [t.event] else [] }

  /** The client may take the turn after the given frames: a frame is meant for the session and comes in
      time, and follows the last one or has another number; after a pause the client acknowledges no more
      than it has sent, and is back within ninety seconds and before the session ends. */
  predicate Proper(s: Session, frames: seq<AudioEvent>, t: Turn) {
    match t
    case Speak(e, now, _) =>
        now > ZERO_TIME && RealtimeAnswers.Admissible(s, e, now) && RealtimeAnswers.Continues(s, frames, e)
    case Stray(e, now) => RealtimeAnswers.Admissible(s, e, now) && e.sequence != |frames|
    case Pause(now, _, e, found, back, _) =>
      && ZERO_TIME < now < s.expiresAt && ValidResume(e) && e.sessionId == s.id && e.lastAcknowledged < |frames|
      && found < s.expiresAt && found <= now + 90 * SECOND
      && back != ZERO_TIME && back < s.expiresAt && back <= now + 90 * SECOND
  }

  predicate ProperTurns(s: Session, turns: seq<Turn>)
    decreases |turns|
  {
    turns == [] || (ProperTurns(s, turns[..|turns| - 1]) && Proper(s, Spoken(turns[..|turns| - 1]), turns[|turns| - 1]))
  }

  /** The four steps of going away. */
  function Going(c: nat, now: Time, clock: Time): seq<RealtimeRuns.Happening> {
    [RealtimeRuns.Acts(c, Leave)]
    + [RealtimeRuns.Acts(c, ReadInterrupt(now)), RealtimeRuns.Acts(c, Save(clock)), RealtimeRuns.Acts(c, DetachLease)]
  }

  /** The five steps of coming back. */
  function ComingBack(d: nat, e: ResumeEvent, found: Time, back: Time, saved: Time): seq<RealtimeRuns.Happening> {
    [RealtimeRuns.Acts(d, ReadForResume(e)), RealtimeRuns.Acts(d, FindStream)]
    + [RealtimeRuns.Acts(d, Reattach(found)), RealtimeRuns.Acts(d, ReadResume(back)), RealtimeRuns.Acts(d, Save(saved))]
  }

  /** What a turn makes connection c, and after a pause connection c + 1, do. */
  function Steps(t: Turn, c: nat): seq<RealtimeRuns.Happening> {
    match t
    case Speak(e, now, clock) =>
      [RealtimeRuns.Acts(c, ReadAudio(e, now)), RealtimeRuns.Acts(c, Save(clock)),
       RealtimeRuns.Acts(c, SendFrame(false))]
    case Stray(e, now) => [RealtimeRuns.Acts(c, ReadAudio(e, now))]
    case Pause(now, clock, e, found, back, saved) =>
      Going(c, now, clock) + ComingBack(c + 1, e, found, back, saved)
  }

  /** The connection that is served after the turns, counted from zero. */
  function Connections(turns: seq<Turn>): nat {
    if turns == [] then 0 else Holder(turns[|turns| - 1], Connections(turns[..|turns| - 1]))
  }

  function Holder(t: Turn, c: nat): nat { if t.Pause? then c + 1 else c }

  function AllSteps(turns: seq<Turn>): seq<RealtimeRuns.Happening> {
    if turns == [] then []
    else AllSteps(turns[..|turns| - 1]) + Steps(turns[|turns| - 1], Connections(turns[..|turns| - 1]))
  }

  // ---------------------------------------------------------------------------
  // Paths
  // ---------------------------------------------------------------------------

  /** The worlds a run goes through. */
  ghost predicate Through(worlds: seq<World>, run: seq<RealtimeRuns.Happening>) {
    |worlds| == |run| + 1 && forall i :: 0 <= i < |run| ==> Leads(worlds[i], run[i], worlds[i + 1])
  }

  ghost predicate Path(w: World, run: seq<RealtimeRuns.Happening>, v: World) {
    exists worlds :: Through(worlds, run) && worlds[0] == w && worlds[|run|] == v
  }

  lemma PathThen(w: World, a: seq<RealtimeRuns.Happening>, m: World, b: seq<RealtimeRuns.Happening>, v: World)
    requires Path(w, a, m) && Path(m, b, v)
    ensures Path(w, a + b, v)
  {
    var first :| Through(first, a) && first[0] == w && first[|a|] == m;
    var second :| Through(second, b) && second[0] == m && second[|b|] == v;
    var worlds := first + second[1..];
    forall i | 0 <= i < |a + b|
      ensures Leads(worlds[i], (a + b)[i], worlds[i + 1])
    {
      if i < |a| {
        assert Leads(first[i], a[i], first[i + 1]);
      } else {
        assert Leads(second[i - |a|], b[i - |a|], second[i - |a| + 1]);
      }
    }
    assert Through(worlds, a + b) && worlds[0] == w && worlds[|a + b|] == v;
  }

  lemma OneStep(w: World, x: RealtimeRuns.Happening, v: World)
    requires Leads(w, x, v)
    ensures Path(w, [x], v)
  {
    assert Through([w, v], [x]) && [w, v][0] == w && [w, v][1] == v;
  }

  lemma TwoSteps(w: World, x: RealtimeRuns.Happening, m: World, y: RealtimeRuns.Happening, v: World)
    requires Leads(w, x, m) && Leads(m, y, v)
    ensures Path(w, [x, y], v)
  {
    OneStep(w, x, m);
    OneStep(m, y, v);
    PathThen(w, [x], m, [y], v);
    assert [x] + [y] == [x, y];
  }

  lemma ThreeSteps(w: World, x: RealtimeRuns.Happening, m: World, y: RealtimeRuns.Happening, n: World,
                   z: RealtimeRuns.Happening, v: World)
    requires Leads(w, x, m) && Leads(m, y, n) && Leads(n, z, v)
    ensures Path(w, [x, y, z], v)
  {
    TwoSteps(w, x, m, y, n);
    OneStep(n, z, v);
    PathThen(w, [x, y], n, [z], v);
    assert [x, y] + [z] == [x, y, z];
  }

  /** A path is a run. */
  lemma {:induction false} PathIsRun(worlds: seq<World>, run: seq<RealtimeRuns.Happening>)
    requires Through(worlds, run)
    ensures Reaches(worlds[0], run, worlds[|run|])
    decreases |run|
  {
    if run != [] {
      assert Leads(worlds[0], run[0], worlds[1]);
      assert Through(worlds[1..], run[1..]) by {
        forall i | 0 <= i < |run| - 1
          ensures Leads(worlds[1..][i], run[1..][i], worlds[1..][i + 1])
        {
          assert Leads(worlds[i + 1], run[i + 1], worlds[i + 2]);
        }
      }
      PathIsRun(worlds[1..], run[1..]);
      StepFirst(worlds[0], run[0], worlds[1], run[1..], worlds[|run|]);
      assert [run[0]] + run[1..] == run;
    }
  }

  lemma PathReaches(w: World, run: seq<RealtimeRuns.Happening>, v: World)
    requires Path(w, run, v)
    ensures Reaches(w, run, v)
  {
    var worlds :| Through(worlds, run) && worlds[0] == w && worlds[|run|] == v;
    PathIsRun(worlds, run);
  }

  // ---------------------------------------------------------------------------
  // Being served
  // ---------------------------------------------------------------------------

  /** The row is the session's, whatever has happened to it. */
  predicate Same(s: Session, row: Session) {
    && row.id == s.id && row.workspaceId == s.workspaceId && row.createdBy == s.createdBy
    && row.clientSessionId == s.clientSessionId && row.idempotencyKey == s.idempotencyKey
    && row.startedAt == s.startedAt && row.expiresAt == s.expiresAt && row.language == s.language
    && row.sampleRateHz == s.sampleRateHz && row.channels == s.channels && row.frameDurationMs == s.frameDurationMs
  }

  /** The row counts the frames, and the stream, which is open, has taken the first n of them. */
  ghost predicate Backed(w: World, s: Session, i: nat, n: nat) {
    && w.row.Some? && SessionInv(w.row.value) && Same(s, w.row.value) && Counts(w.row.value, w.frames)
    && n <= |w.frames| && w.registered == Some(i) && i < |w.entries| && OpenEntry(w.entries[i], s)
    && InStep(w.entries[i].stream, s, w.frames[..n])
  }

  ghost predicate OpenEntry(e: Entry, s: Session) {
    && !e.closed && !e.ended && e.expiresAt == s.expiresAt && !e.stream.closed && !e.stream.finished
    && FixtureOk(e.stream.segments, e.stream.chinese) && (e.attached ==> e.reconnectBy == ZERO_TIME)
  }

  ghost predicate Unused(w: World, c: nat) { forall d: nat :: d >= c ==> d !in w.connections }

  /** Connection c holds the stream and is at the given point. */
  ghost predicate At(w: World, s: Session, c: nat, h: Handle, k: Connection, n: nat) {
    && Backed(w, s, h.entry, n) && Usable(w.entries[h.entry], h.lease)
    && c in w.connections && w.connections[c] == k && Unused(w, c + 1)
  }

  /** Connection c is served: it waits for the next event, and the stream has taken every frame. */
  ghost predicate Serves(w: World, s: Session, c: nat, h: Handle, revision: int) {
    && At(w, s, c, h, Serving(h, revision), |w.frames|) && w.row.value.state.Streaming?
    && revision <= w.entries[h.entry].stream.revision
  }

  lemma Moved(w: World, s: Session, c: nat, h: Handle, k: Connection, next: Connection, n: nat)
    requires At(w, s, c, h, k, n)
    ensures At(Put(w, c, next), s, c, h, next, n)
  {}

  /** A saved row keeps a connection where it is, if it still counts the frames. */
  lemma Rewritten(w: World, s: Session, c: nat, h: Handle, k: Connection, row: Session, frames: seq<AudioEvent>, n: nat)
    requires At(w, s, c, h, k, n) && SessionInv(row) && Same(s, row) && Counts(row, frames)
    requires n <= |frames| && frames[..n] == w.frames[..n]
    ensures At(w.(row := Some(row), frames := frames), s, c, h, k, n)
  {}

  /** A save that nobody disturbs is made, and the connection goes where it goes after it. */
  lemma SaveIsMade(w: World, s: Session, c: nat, h: Handle, purpose: Purpose, u: Session, frames: seq<AudioEvent>,
                   clock: Time, n: nat) returns (v: World)
    requires w.row.Some? && At(w, s, c, h, Saving(Some(h), purpose, w.row.value, u), n)
    requires u.version == w.row.value.version + 1 && SessionInv(u) && Same(s, u) && Counts(u, frames)
    requires n <= |frames| && frames[..n] == w.frames[..n]
    requires frames == if purpose.ForAudio? then w.frames + [purpose.event] else w.frames
    ensures Leads(w, RealtimeRuns.Acts(c, Save(clock)), v) && v.frames == frames && v.entries == w.entries
    ensures v.row == Some(Stamped(u, clock)) && At(v, s, c, h, AfterSave(Some(h), purpose, u), n)
  {
    v := Next(w, c, Save(clock));
    var next := AfterSave(Some(h), purpose, u);
    Moved(w, s, c, h, w.connections[c], next, n);
    StampKeepsInv(u, clock, frames);
    Rewritten(Put(w, c, next), s, c, h, next, Stamped(u, clock), frames, n);
  }

  // ---------------------------------------------------------------------------
  // One frame
  // ---------------------------------------------------------------------------

  /** The row takes the frame. */
  lemma RowTakesFrame(s: Session, row: Session, frames: seq<AudioEvent>, e: AudioEvent, now: Time)
    requires SessionInv(row) && Same(s, row) && Counts(row, frames) && row.state.Streaming?
    requires RealtimeAnswers.Admissible(s, e, now) && RealtimeAnswers.Continues(s, frames, e)
    ensures ApplyAudio(row, e, now).Ok? && ApplyAudio(row, e, now).value.1.Accepted?
    ensures var u := ApplyAudio(row, e, now).value.0;
            SessionInv(u) && Same(s, u) && Counts(u, frames + [e]) && u.version == row.version + 1 && u.state.Streaming?
  {
    RealtimeAnswers.AnswersTellWhatIsStored(row, frames, e, now);
    AudioKeepsInv(row, e, now);
    AcceptedFrameExtends(row, frames, e, now);
  }

  lemma FrameIsCounted(w: World, s: Session, c: nat, h: Handle, revision: int, e: AudioEvent, now: Time, clock: Time)
    returns (m: World, v: World)
    requires Serves(w, s, c, h, revision) && RealtimeAnswers.Admissible(s, e, now)
    requires RealtimeAnswers.Continues(s, w.frames, e)
    ensures Leads(w, RealtimeRuns.Acts(c, ReadAudio(e, now)), m) && Leads(m, RealtimeRuns.Acts(c, Save(clock)), v)
    ensures v.frames == w.frames + [e] && v.entries == w.entries && v.row.Some? && v.row.value.state.Streaming?
    ensures At(v, s, c, h, Pushing(h, revision, e), |w.frames|)
  {
    var row := w.row.value;
    RowTakesFrame(s, row, w.frames, e, now);
    var u := ApplyAudio(row, e, now).value.0;
    m := Next(w, c, ReadAudio(e, now));
    Moved(w, s, c, h, w.connections[c], Saving(Some(h), ForAudio(revision, e, 0), row, u), |w.frames|);
    v := SaveIsMade(m, s, c, h, ForAudio(revision, e, 0), u, w.frames + [e], clock, |w.frames|);
  }

  lemma FrameIsPushed(w: World, s: Session, c: nat, h: Handle, revision: int, e: AudioEvent)
    returns (v: World, next: int)
    requires w.frames != [] && w.frames[|w.frames| - 1] == e && 20 <= s.frameDurationMs <= 100
    requires At(w, s, c, h, Pushing(h, revision, e), |w.frames| - 1) && w.row.value.state.Streaming?
    requires revision <= w.entries[h.entry].stream.revision
    ensures Leads(w, RealtimeRuns.Acts(c, SendFrame(false)), v) && v.frames == w.frames && Serves(v, s, c, h, next)
  {
    var i, init := h.entry, w.frames[..|w.frames| - 1];
    assert init + [e] == w.frames;
    AcceptedFrameIsPushed(w.entries[i].stream, w.row.value, init, e, revision);
    v := Next(w, c, SendFrame(false));
    next := v.connections[c].revision;
    assert w.frames[..|w.frames|] == w.frames;
  }

  lemma SpeakIsServed(w: World, s: Session, c: nat, h: Handle, revision: int, t: Turn) returns (v: World, next: int)
    requires Serves(w, s, c, h, revision) && t.Speak? && Proper(s, w.frames, t)
    ensures Path(w, Steps(t, c), v) && v.frames == w.frames + [t.event] && Serves(v, s, c, h, next)
  {
    var m, n;
    m, n := FrameIsCounted(w, s, c, h, revision, t.event, t.now, t.clock);
    v, next := FrameIsPushed(n, s, c, h, revision, t.event);
    ThreeSteps(w, RealtimeRuns.Acts(c, ReadAudio(t.event, t.now)), m, RealtimeRuns.Acts(c, Save(t.clock)), n,
               RealtimeRuns.Acts(c, SendFrame(false)), v);
  }

  /** A frame that has been sent before, or before its turn, changes nothing. */
  lemma StrayIsHarmless(w: World, s: Session, c: nat, h: Handle, revision: int, e: AudioEvent, now: Time)
    requires Serves(w, s, c, h, revision) && RealtimeAnswers.Admissible(s, e, now) && e.sequence != |w.frames|
    ensures Leads(w, RealtimeRuns.Acts(c, ReadAudio(e, now)), w)
  {
    RealtimeAnswers.AnswersTellWhatIsStored(w.row.value, w.frames, e, now);
    RealtimeAnswers.NumberedIffBelow(w.row.value, w.frames, e.sequence);
    assert w.connections[c := Serving(h, revision)] == w.connections;
  }

  // ---------------------------------------------------------------------------
  // A pause
  // ---------------------------------------------------------------------------

  /** The connection has left: the row is interrupted and the stream waits for its client, both until
      the deadline. */
  ghost predicate Waits(w: World, s: Session, i: nat, deadline: Time) {
    && Backed(w, s, i, |w.frames|) && w.row.value.state.Interrupted? && w.row.value.reconnectBy == Some(deadline)
    && !w.entries[i].attached && w.entries[i].reconnectBy == deadline && deadline != ZERO_TIME
  }

  lemma RowIsInterrupted(s: Session, row: Session, frames: seq<AudioEvent>, now: Time)
    requires SessionInv(row) && Same(s, row) && Counts(row, frames) && row.state.Streaming?
             && ZERO_TIME < now < s.expiresAt
    ensures Interrupt(row, now, DEFAULT_RECONNECT_WINDOW).Ok?
    ensures var u := Interrupt(row, now, DEFAULT_RECONNECT_WINDOW).value;
            && SessionInv(u) && Same(s, u) && Counts(u, frames) && u.version == row.version + 1 && u.state.Interrupted?
            && u.reconnectBy == Some(Min(now + 90 * SECOND, s.expiresAt))
  {
    WindowKeepsInv(row, Interruption(now, DEFAULT_RECONNECT_WINDOW));
    OtherStepsKeepFrames(row, Interruption(now, DEFAULT_RECONNECT_WINDOW));
  }

  lemma ClientLeaves(w: World, s: Session, c: nat, h: Handle, revision: int) returns (v: World)
    requires Serves(w, s, c, h, revision)
    ensures Leads(w, RealtimeRuns.Acts(c, Leave), v) && At(v, s, c, h, Retaining(h), |w.frames|)
    ensures v.frames == w.frames && v.row == w.row
  {
    v := Next(w, c, Leave);
    Moved(w, s, c, h, w.connections[c], Retaining(h), |w.frames|);
  }

  lemma LeavingIsSaved(w: World, s: Session, c: nat, h: Handle, now: Time, clock: Time) returns (m: World, v: World)
    requires At(w, s, c, h, Retaining(h), |w.frames|) && w.row.value.state.Streaming? && ZERO_TIME < now < s.expiresAt
    ensures Leads(w, RealtimeRuns.Acts(c, ReadInterrupt(now)), m)
    ensures Leads(m, RealtimeRuns.Acts(c, Save(clock)), v) && v.frames == w.frames && v.row.Some?
    ensures var deadline := Min(now + 90 * SECOND, s.expiresAt);
            && At(v, s, c, h, Detaching(h, Some(deadline)), |v.frames|)
            && v.row.value.state.Interrupted? && v.row.value.reconnectBy == Some(deadline)
  {
    var row := w.row.value;
    RowIsInterrupted(s, row, w.frames, now);
    var u := Interrupt(row, now, DEFAULT_RECONNECT_WINDOW).value;
    m := Next(w, c, ReadInterrupt(now));
    Moved(w, s, c, h, Retaining(h), Saving(Some(h), ForInterrupt, row, u), |w.frames|);
    v := SaveIsMade(m, s, c, h, ForInterrupt, u, w.frames, clock, |w.frames|);
  }

  lemma StreamIsLetGo(w: World, s: Session, c: nat, h: Handle, deadline: Time) returns (v: World)
    requires At(w, s, c, h, Detaching(h, Some(deadline)), |w.frames|) && ZERO_TIME < deadline <= s.expiresAt
    requires w.row.value.state.Interrupted? && w.row.value.reconnectBy == Some(deadline)
    ensures Leads(w, RealtimeRuns.Acts(c, DetachLease), v) && v.frames == w.frames
    ensures Waits(v, s, h.entry, deadline) && Unused(v, c + 1) && c in v.connections && v.connections[c] == Done
  {
    v := Next(w, c, DetachLease);
  }

  lemma PauseIsServed(w: World, s: Session, c: nat, h: Handle, revision: int, now: Time, clock: Time) returns (v: World)
    requires Serves(w, s, c, h, revision) && ZERO_TIME < now < s.expiresAt
    ensures Path(w, Going(c, now, clock), v)
    ensures Waits(v, s, h.entry, Min(now + 90 * SECOND, s.expiresAt)) && Unused(v, c + 1) && v.frames == w.frames
  {
    var l := ClientLeaves(w, s, c, h, revision);
    var m, n := LeavingIsSaved(l, s, c, h, now, clock);
    v := StreamIsLetGo(n, s, c, h, Min(now + 90 * SECOND, s.expiresAt));
    OneStep(w, RealtimeRuns.Acts(c, Leave), l);
    ThreeSteps(l, RealtimeRuns.Acts(c, ReadInterrupt(now)), m, RealtimeRuns.Acts(c, Save(clock)), n,
               RealtimeRuns.Acts(c, DetachLease), v);
    PathThen(w, [RealtimeRuns.Acts(c, Leave)], l, Going(c, now, clock)[1..], v);
  }

  /** A new connection looks for the session and its stream. */
  lemma StreamIsFound(w: World, s: Session, i: nat, deadline: Time, d: nat, e: ResumeEvent) returns (m: World, v: World)
    requires Waits(w, s, i, deadline) && Unused(w, d)
    ensures Leads(w, RealtimeRuns.Acts(d, ReadForResume(e)), m) && Leads(m, RealtimeRuns.Acts(d, FindStream), v)
    ensures v == Put(w, d, ResumeFound(w.row.value, e, i)) && Waits(v, s, i, deadline) && Unused(v, d + 1)
  {
    m := Next(w, d, ReadForResume(e));
    v := Next(m, d, FindStream);
    assert v.connections == w.connections[d := ResumeFound(w.row.value, e, i)];
  }

  lemma StreamIsTaken(w: World, s: Session, i: nat, deadline: Time, d: nat, e: ResumeEvent, found: Time)
    returns (v: World, h: Handle)
    requires Waits(w, s, i, deadline) && Unused(w, d + 1) && d in w.connections
    requires w.connections[d] == ResumeFound(w.row.value, e, i) && found < s.expiresAt && found <= deadline
    ensures Leads(w, RealtimeRuns.Acts(d, Reattach(found)), v) && v.frames == w.frames && v.row == w.row
    ensures h == Handle(i, w.entries[i].lease + 1) && At(v, s, d, h, Leased(h, w.row.value, e), |v.frames|)
  {
    h := Handle(i, w.entries[i].lease + 1);
    v := Next(w, d, Reattach(found));
  }

  lemma RowIsResumed(s: Session, row: Session, frames: seq<AudioEvent>, e: ResumeEvent, back: Time)
    requires SessionInv(row) && Same(s, row) && Counts(row, frames) && row.state.Interrupted? && row.reconnectBy.Some?
    requires ValidResume(e) && e.sessionId == s.id && e.lastAcknowledged < |frames|
    requires back != ZERO_TIME && back < s.expiresAt && back <= row.reconnectBy.value
    ensures RealtimeSession.Resume(row, e, back).Ok?
    ensures var u := RealtimeSession.Resume(row, e, back).value;
            SessionInv(u) && Same(s, u) && Counts(u, frames) && u.version == row.version + 1 && u.state.Streaming?
  {
    WindowKeepsInv(row, Resumption(e, back));
    OtherStepsKeepFrames(row, Resumption(e, back));
  }

  lemma ResumeIsSaved(w: World, s: Session, d: nat, h: Handle, e: ResumeEvent, back: Time, saved: Time)
    returns (m: World, v: World)
    requires w.row.Some? && At(w, s, d, h, Leased(h, w.row.value, e), |w.frames|)
    requires w.row.value.state.Interrupted? && w.row.value.reconnectBy.Some?
    requires ValidResume(e) && e.sessionId == s.id && e.lastAcknowledged < |w.frames|
    requires back != ZERO_TIME && back < s.expiresAt && back <= w.row.value.reconnectBy.value
    ensures Leads(w, RealtimeRuns.Acts(d, ReadResume(back)), m) && Leads(m, RealtimeRuns.Acts(d, Save(saved)), v)
    ensures v.frames == w.frames && Serves(v, s, d, h, 0)
  {
    var row := w.row.value;
    RowIsResumed(s, row, w.frames, e, back);
    var u := RealtimeSession.Resume(row, e, back).value;
    m := Next(w, d, ReadResume(back));
    Moved(w, s, d, h, w.connections[d], Saving(Some(h), ForResume(row.reconnectBy), row, u), |w.frames|);
    v := SaveIsMade(m, s, d, h, ForResume(row.reconnectBy), u, w.frames, saved, |w.frames|);
  }

  lemma ReturnIsServed(w: World, s: Session, i: nat, deadline: Time, d: nat, e: ResumeEvent, found: Time, back: Time,
                       saved: Time) returns (v: World, h: Handle)
    requires Waits(w, s, i, deadline) && Unused(w, d)
    requires ValidResume(e) && e.sessionId == s.id && e.lastAcknowledged < |w.frames|
    requires found < s.expiresAt && found <= deadline && back != ZERO_TIME && back < s.expiresAt && back <= deadline
    ensures Path(w, ComingBack(d, e, found, back, saved), v) && v.frames == w.frames && Serves(v, s, d, h, 0)
  {
    var m, n, o, q;
    m, n := StreamIsFound(w, s, i, deadline, d, e);
    o, h := StreamIsTaken(n, s, i, deadline, d, e, found);
    q, v := ResumeIsSaved(o, s, d, h, e, back, saved);
    var first := [RealtimeRuns.Acts(d, ReadForResume(e)), RealtimeRuns.Acts(d, FindStream)];
    var last := [RealtimeRuns.Acts(d, Reattach(found)), RealtimeRuns.Acts(d, ReadResume(back)),
                 RealtimeRuns.Acts(d, Save(saved))];
    TwoSteps(w, first[0], m, first[1], n);
    ThreeSteps(n, last[0], o, last[1], q, last[2], v);
    PathThen(w, first, n, last, v);
  }

  lemma AbsenceIsServed(w: World, s: Session, c: nat, h: Handle, revision: int, t: Turn) returns (v: World, g: Handle)
    requires Serves(w, s, c, h, revision) && t.Pause? && Proper(s, w.frames, t)
    ensures Path(w, Steps(t, c), v) && v.frames == w.frames && Serves(v, s, c + 1, g, 0)
  {
    var m := PauseIsServed(w, s, c, h, revision, t.now, t.clock);
    v, g := ReturnIsServed(m, s, h.entry, Min(t.now + 90 * SECOND, s.expiresAt), c + 1, t.resume, t.found, t.back,
                           t.saved);
    PathThen(w, Going(c, t.now, t.clock), m, ComingBack(c + 1, t.resume, t.found, t.back, t.saved), v);
  }

  /** The run leads from w to v, where connection c is served and the frames have been counted. */
  ghost predicate ServedAs(w: World, s: Session, run: seq<RealtimeRuns.Happening>, frames: seq<AudioEvent>, c: nat,
                           v: World,
                           h: Handle, revision: int) {
    Path(w, run, v) && v.frames == frames && Serves(v, s, c, h, revision)
  }

  lemma TurnIsServed(w: World, s: Session, c: nat, h: Handle, revision: int, t: Turn)
    returns (v: World, g: Handle, next: int)
    requires Serves(w, s, c, h, revision) && Proper(s, w.frames, t)
    ensures ServedAs(w, s, Steps(t, c), w.frames + Added(t), Holder(t, c), v, g, next)
  {
    if t.Speak? {
      g := h;
      v, next := SpeakIsServed(w, s, c, h, revision, t);
    } else if t.Stray? {
      v, g, next := w, h, revision;
      StrayIsHarmless(w, s, c, h, revision, t.event, t.now);
      OneStep(w, RealtimeRuns.Acts(c, ReadAudio(t.event, t.now)), w);
    } else {
      next := 0;
      v, g := AbsenceIsServed(w, s, c, h, revision, t);
    }
  }

  ghost predicate Servable(w: World, s: Session, run: seq<RealtimeRuns.Happening>, frames: seq<AudioEvent>, c: nat) {
    exists v, h, revision :: ServedAs(w, s, run, frames, c, v, h, revision)
  }

  lemma OneMoreTurn(w: World, s: Session, run: seq<RealtimeRuns.Happening>, frames: seq<AudioEvent>, c: nat, t: Turn)
    requires Servable(w, s, run, frames, c) && Proper(s, frames, t)
    ensures Servable(w, s, run + Steps(t, c), frames + Added(t), Holder(t, c))
  {
    var m, h, revision :| ServedAs(w, s, run, frames, c, m, h, revision);
    var v, g, next := TurnIsServed(m, s, c, h, revision, t);
    PathThen(w, run, m, Steps(t, c), v);
    assert ServedAs(w, s, run + Steps(t, c), frames + Added(t), Holder(t, c), v, g, next);
  }

  /** Any number of proper turns is served. */
  lemma {:induction false} TurnsAreServed(w: World, s: Session, turns: seq<Turn>, run: seq<RealtimeRuns.Happening>,
                                          frames: seq<AudioEvent>, c: nat)
    requires Servable(w, s, [], [], 0) && ProperTurns(s, turns)
    requires run == AllSteps(turns) && frames == Spoken(turns) && c == Connections(turns)
    ensures Servable(w, s, run, frames, c)
    decreases |turns|
  {
    if turns != [] {
      var init, t := turns[..|turns| - 1], turns[|turns| - 1];
      var before, heard, d := AllSteps(init), Spoken(init), Connections(init);
      assert run == before + Steps(t, d) && frames == heard + Added(t) && c == Holder(t, d) && Proper(s, heard, t);
      TurnsAreServed(w, s, init, before, heard, d);
      OneMoreTurn(w, s, before, heard, d, t);
    }
  }

  // ---------------------------------------------------------------------------
  // The beginning and the end
  // ---------------------------------------------------------------------------

  lemma StreamOpens(s: Session)
    requires SessionInv(s)
    ensures var chinese := IsChinese(s.language);
            var p := OpenStream(s, Fixture(chinese), chinese);
            p.Some? && InStep(p.value, s, []) && OpenEntry(FreshEntry(s.expiresAt, p.value), s)
  {
    FixturesOk();
  }

  lemma SessionStarts(id: string, workspaceId: string, createdBy: string, e: StartEvent, now: Time, ready: Time)
    returns (m: World, n: World, v: World)
    requires NewSession(id, workspaceId, createdBy, e, now, 0).Ok?
    requires ready != ZERO_TIME && ready < NewSession(id, workspaceId, createdBy, e, now, 0).value.expiresAt
    ensures Leads(RealtimeRuns.EMPTY_WORLD, RealtimeRuns.Acts(0, Start(id, workspaceId, createdBy, e, now)), m)
    ensures Leads(m, RealtimeRuns.Acts(0, LookUp), n) && Leads(n, RealtimeRuns.Acts(0, Open(ready, false)), v)
    ensures v.frames == []
            && Serves(v, NewSession(id, workspaceId, createdBy, e, now, 0).value, 0, Handle(0, 1), 0)
  {
    var s := NewSession(id, workspaceId, createdBy, e, now, 0).value;
    FreshSessionInv(id, workspaceId, createdBy, e, now, 0);
    RealtimeAnswers.NewSessionIsTheClients(id, workspaceId, createdBy, e, now, 0);
    StreamOpens(s);
    m := Next(RealtimeRuns.EMPTY_WORLD, 0, Start(id, workspaceId, createdBy, e, now));
    n := Next(m, 0, LookUp);
    v := Next(n, 0, Open(ready, false));
  }

  lemma RowIsFinalized(s: Session, row: Session, frames: seq<AudioEvent>, e: FinishEvent, now: Time)
    requires SessionInv(row) && Same(s, row) && Counts(row, frames) && row.state.Streaming? && Closes(s, frames, e, now)
    ensures BeginFinalization(row, e, now).Ok?
    ensures var u := BeginFinalization(row, e, now).value;
            && SessionInv(u) && Same(s, u) && Counts(u, frames) && u.version == row.version + 1 && u.state.Finalizing?
            && u.archiveSha256 == e.archiveSha256 && u.capturedDurationMs == e.capturedDurationMs
  {
    RealtimeAnswers.FinishNamesTheLastFrame(row, frames, e, now);
    EndingKeepsInv(row, Finalization(e, now));
    OtherStepsKeepFrames(row, Finalization(e, now));
  }

  /** The finish names the last of at least one frame and covers it, and comes in time. */
  predicate Closes(s: Session, frames: seq<AudioEvent>, e: FinishEvent, now: Time) {
    && ValidFinish(e) && e.sessionId == s.id && now != ZERO_TIME && now < s.expiresAt && frames != []
    && e.finalSequence == |frames| - 1 && frames[|frames| - 1].capturedAtMs <= e.capturedDurationMs
  }

  lemma FinishIsSaved(w: World, s: Session, c: nat, h: Handle, revision: int, e: FinishEvent, now: Time, clock: Time)
    returns (m: World, v: World)
    requires Serves(w, s, c, h, revision) && Closes(s, w.frames, e, now)
    ensures Leads(w, RealtimeRuns.Acts(c, ReadFinish(e, now)), m) && Leads(m, RealtimeRuns.Acts(c, Save(clock)), v)
    ensures v.frames == w.frames && At(v, s, c, h, Finalized(h), |v.frames|) && Archived(v.row, e)
  {
    RowIsFinalized(s, w.row.value, w.frames, e, now);
    var u := BeginFinalization(w.row.value, e, now).value;
    m := FinishIsRead(w, c, h, revision, e, now);
    Moved(w, s, c, h, w.connections[c], m.connections[c], |w.frames|);
    v := SaveIsMade(m, s, c, h, ForFinish(revision), u, w.frames, clock, |w.frames|);
  }

  lemma FinishIsRead(w: World, c: nat, h: Handle, revision: int, e: FinishEvent, now: Time) returns (m: World)
    requires c in w.connections && w.connections[c] == Serving(h, revision) && w.row.Some?
    requires BeginFinalization(w.row.value, e, now).Ok?
    ensures Leads(w, RealtimeRuns.Acts(c, ReadFinish(e, now)), m)
    ensures m == Put(w, c,
                     Saving(Some(h), ForFinish(revision), w.row.value, BeginFinalization(w.row.value, e, now).value))
  {
    m := Next(w, c, ReadFinish(e, now));
  }

  predicate Archived(row: Option<Session>, e: FinishEvent) {
    && row.Some? && row.value.state.Finalizing? && row.value.archiveSha256 == e.archiveSha256
    && row.value.capturedDurationMs == e.capturedDurationMs
  }

  /** The stream has taken the frames and is closed. */
  ghost predicate Ended(w: World, s: Session, i: nat) {
    && i < |w.entries| && w.entries[i].closed && w.entries[i].stream.pushed == w.frames
    && w.row.Some? && SessionInv(w.row.value) && Same(s, w.row.value) && Counts(w.row.value, w.frames)
  }

  lemma ProviderFinishes(w: World, s: Session, c: nat, h: Handle, r: ProviderResult) returns (v: World)
    requires At(w, s, c, h, Finalized(h), |w.frames|) && w.frames != [] && ValidResult(NormalizeResult(r))
    ensures Leads(w, RealtimeRuns.Acts(c, FinishLease(false, r)), v) && v.frames == w.frames && v.row == w.row
    ensures Ended(v, s, h.entry) && c in v.connections && v.connections[c] == Completing(h, NormalizeResult(r))
  {
    assert w.frames[..|w.frames|] == w.frames;
    v := Next(w, c, FinishLease(false, r));
  }

  lemma RowIsCompleted(s: Session, row: Session, frames: seq<AudioEvent>, r: ProviderResult, now: Time)
    requires SessionInv(row) && Same(s, row) && Counts(row, frames) && row.state.Finalizing? && now != ZERO_TIME
    requires ValidResult(NormalizeResult(r))
    ensures Complete(row, NormalizeResult(r), now).Ok?
    ensures var u := Complete(row, NormalizeResult(r), now).value;
            && SessionInv(u) && Same(s, u) && Counts(u, frames) && u.version == row.version + 1 && u.state.Completed?
            && StoredResult(u) == NormalizeResult(r) && u.archiveSha256 == row.archiveSha256
            && u.capturedDurationMs == row.capturedDurationMs
  {
    NormalizeIdempotent(r);
    CompletionKeepsInv(row, NormalizeResult(r), now);
    OtherStepsKeepFrames(row, Completion(NormalizeResult(r), now));
  }

  /** The recording is over: completed, with everything the client sent and the result it was given. */
  ghost predicate Delivered(w: World, s: Session, e: FinishEvent, r: ProviderResult) {
    && w.row.Some? && w.row.value.state.Completed? && Same(s, w.row.value) && Counts(w.row.value, w.frames)
    && StoredResult(w.row.value) == NormalizeResult(r) && w.row.value.archiveSha256 == e.archiveSha256
    && w.row.value.capturedDurationMs == e.capturedDurationMs
  }

  lemma ResultIsSaved(w: World, s: Session, c: nat, h: Handle, e: FinishEvent, r: ProviderResult, now: Time,
                      clock: Time)
    returns (m: World, v: World)
    requires Ended(w, s, h.entry) && c in w.connections && w.connections[c] == Completing(h, NormalizeResult(r))
    requires Archived(w.row, e) && now != ZERO_TIME && ValidResult(NormalizeResult(r))
    ensures Leads(w, RealtimeRuns.Acts(c, ReadComplete(now)), m) && Leads(m, RealtimeRuns.Acts(c, Save(clock)), v)
    ensures v.frames == w.frames && v.entries == w.entries && Delivered(v, s, e, r)
    ensures c in v.connections && v.connections[c] == Done
  {
    RowIsCompleted(s, w.row.value, w.frames, r, now);
    var u := Complete(w.row.value, NormalizeResult(r), now).value;
    StampKeepsInv(u, clock, w.frames);
    m := ResultIsRead(w, c, h, NormalizeResult(r), now);
    v := CompletionIsMade(m, c, Some(h), w.row.value, u, clock);
  }

  lemma ResultIsRead(w: World, c: nat, h: Handle, r: ProviderResult, now: Time) returns (m: World)
    requires c in w.connections && w.connections[c] == Completing(h, r) && w.row.Some?
             && Complete(w.row.value, r, now).Ok?
    ensures Leads(w, RealtimeRuns.Acts(c, ReadComplete(now)), m)
    ensures m == Put(w, c, Saving(Some(h), ForComplete, w.row.value, Complete(w.row.value, r, now).value))
  {
    m := Next(w, c, ReadComplete(now));
  }

  lemma CompletionIsMade(w: World, c: nat, holding: Option<Handle>, row: Session, u: Session, clock: Time)
    returns (v: World)
    requires c in w.connections && w.connections[c] == Saving(holding, ForComplete, row, u) && w.row == Some(row)
    requires u.version == row.version + 1
    ensures Leads(w, RealtimeRuns.Acts(c, Save(clock)), v)
    ensures v == Put(w, c, Done).(row := Some(Stamped(u, clock)))
  {
    v := Next(w, c, Save(clock));
  }

  /** The five steps of the end. */
  function Ending(c: nat, e: FinishEvent, now: Time, clock: Time, r: ProviderResult, done: Time, saved: Time)
    : seq<RealtimeRuns.Happening>
  {
    [RealtimeRuns.Acts(c, ReadFinish(e, now)), RealtimeRuns.Acts(c, Save(clock))]
    + [RealtimeRuns.Acts(c, FinishLease(false, r)), RealtimeRuns.Acts(c, ReadComplete(done)),
       RealtimeRuns.Acts(c, Save(saved))]
  }

  lemma EndIsServed(w: World, s: Session, c: nat, h: Handle, revision: int, e: FinishEvent, now: Time, clock: Time,
                    r: ProviderResult, done: Time, saved: Time) returns (v: World)
    requires Serves(w, s, c, h, revision) && Closes(s, w.frames, e, now)
    requires ValidResult(NormalizeResult(r)) && done != ZERO_TIME
    ensures Path(w, Ending(c, e, now, clock, r, done, saved), v)
    ensures v.frames == w.frames && Delivered(v, s, e, r)
    ensures h.entry < |v.entries| && v.entries[h.entry].closed && v.entries[h.entry].stream.pushed == v.frames
  {
    var first := [RealtimeRuns.Acts(c, ReadFinish(e, now)), RealtimeRuns.Acts(c, Save(clock))];
    var last := [RealtimeRuns.Acts(c, FinishLease(false, r)), RealtimeRuns.Acts(c, ReadComplete(done)),
                 RealtimeRuns.Acts(c, Save(saved))];
    var m, n := FinishIsSaved(w, s, c, h, revision, e, now, clock);
    var o := ProviderFinishes(n, s, c, h, r);
    var q;
    q, v := ResultIsSaved(o, s, c, h, e, r, done, saved);
    TwoSteps(w, first[0], m, first[1], n);
    ThreeSteps(n, last[0], o, last[1], q, last[2], v);
    PathThen(w, first, n, last, v);
  }

  /** The three steps of the beginning. */
  function Beginning(id: string, workspaceId: string, createdBy: string, e: StartEvent, now: Time, ready: Time)
    : seq<RealtimeRuns.Happening>
  {
    [RealtimeRuns.Acts(0, Start(id, workspaceId, createdBy, e, now)), RealtimeRuns.Acts(0, LookUp),
     RealtimeRuns.Acts(0, Open(ready, false))]
  }

  /** Every recording that follows the protocol is delivered. Whatever the client, its format and its
      language, with any number of frames, strays and pauses from which it returns in time: the session starts,
      every frame is counted and taken by the provider in order, and the finish stores the archive's
      digest and duration and the provider's result, and leaves the stream closed. */
  lemma EveryRecordingIsDelivered(id: string, workspaceId: string, createdBy: string, start: StartEvent, now: Time,
                                  ready: Time, turns: seq<Turn>, finish: FinishEvent, ended: Time, clock: Time,
                                  r: ProviderResult, done: Time, saved: Time) returns (v: World, i: nat)
    requires NewSession(id, workspaceId, createdBy, start, now, 0).Ok?
    requires var s := NewSession(id, workspaceId, createdBy, start, now, 0).value;
             && ready != ZERO_TIME && ready < s.expiresAt && ProperTurns(s, turns)
             && Closes(s, Spoken(turns), finish, ended) && ValidResult(NormalizeResult(r)) && done != ZERO_TIME
    ensures Reaches(RealtimeRuns.EMPTY_WORLD,
                    Beginning(id, workspaceId, createdBy, start, now, ready) + AllSteps(turns)
                    + Ending(Connections(turns), finish, ended, clock, r, done, saved), v)
    ensures v.frames == Spoken(turns)
            && Delivered(v, NewSession(id, workspaceId, createdBy, start, now, 0).value, finish, r)
    ensures i < |v.entries| && v.entries[i].closed && v.entries[i].stream.pushed == Spoken(turns)
  {
    var s := NewSession(id, workspaceId, createdBy, start, now, 0).value;
    var first := Beginning(id, workspaceId, createdBy, start, now, ready);
    var k, l, m := SessionStarts(id, workspaceId, createdBy, start, now, ready);
    ThreeSteps(RealtimeRuns.EMPTY_WORLD, first[0], k, first[1], l, first[2], m);
    assert Through([m], []) && [m][0] == m && ServedAs(m, s, [], [], 0, m, Handle(0, 1), 0);
    TurnsAreServed(m, s, turns, AllSteps(turns), Spoken(turns), Connections(turns));
    var n, h, revision :| ServedAs(m, s, AllSteps(turns), Spoken(turns), Connections(turns), n, h, revision);
    PathThen(RealtimeRuns.EMPTY_WORLD, first, m, AllSteps(turns), n);
    v := EndIsServed(n, s, Connections(turns), h, revision, finish, ended, clock, r, done, saved);
    PathThen(RealtimeRuns.EMPTY_WORLD, first + AllSteps(turns), n,
             Ending(Connections(turns), finish, ended, clock, r, done, saved), v);
    PathReaches(RealtimeRuns.EMPTY_WORLD,
                first + AllSteps(turns) + Ending(Connections(turns), finish, ended, clock, r, done, saved), v);
    i := h.entry;
  }
}
