/** A run of the realtime protocol in which a client reconnects too quickly: the row is already
    interrupted, the old connection has not let go of the stream yet, and the resume fails the
    session. */
module QuickResume {
  import opened Common
  import opened Strings
  import opened RealtimeSession
  import opened RealtimeProvider
  import opened RealtimeHub
  import opened RealtimeProtocol
  import opened RealtimeRuns

  const ID := "00000000-0000-0000-0000-000000000000"
  const START: StartEvent := StartEvent("1", ID, "key", "pcm_s16le", 16000, 1, 20, "en", "", "")
  const RESUME: ResumeEvent := ResumeEvent("1", ID, -1)

  /** Connection 0 starts the session, is served, and is left; its interruption is saved. */
  const LEFT: seq<Happening> := [
    Acts(0, Start(ID, ID, ID, START, 100)), Acts(0, LookUp), Acts(0, Open(100, false)),
    Acts(0, Leave), Acts(0, ReadInterrupt(200)), Acts(0, Save(200))]

  /** Connection 1 asks to resume before connection 0 detaches, and records the failure. */
  const RESUMED: seq<Happening> := [
    Acts(1, ReadForResume(RESUME)), Acts(1, FindStream), Acts(1, Reattach(300)),
    Acts(1, ReadFailure), Acts(1, Save(400))]

  lemma EnglishIsATag()
    ensures LanguageTag("en")
  {
    assert "en"[1..] == "n" && "n"[1..] == "";
    assert Span("", IsLetter) == 0 && Span("n", IsLetter) == 1 && Span("en", IsLetter) == 2;
    assert "en"[2..] == [];
  }

  lemma KeyIsAKey()
    ensures ValidIdempotencyKey("key")
  {
    assert "key"[1..] == "ey" && "ey"[1..] == "y" && "y"[1..] == "";
    assert Utf8Length("") == 0 && Utf8Length("y") == 1 && Utf8Length("ey") == 2;
  }

  lemma EventsAreValid()
    ensures CanonicalUuid(ID) && ValidStart(START) && ValidResume(RESUME)
  {
    EnglishIsATag();
    KeyIsAKey();
  }

  ghost predicate Reaches(w: World, run: seq<Happening>, v: World) {
    RealtimeRuns.IsRun(w, run) && RealtimeRuns.Run(w, run) == v
  }

  /** One step that leads from w to v. */
  predicate Leads(w: World, x: Happening, v: World) { RealtimeRuns.Possible(w, x) && Then(w, x) == v }

  lemma FirstStep(w: World, run: seq<Happening>, v: World) returns (m: World)
    requires Reaches(w, run, v) && run != []
    ensures Leads(w, run[0], m) && Reaches(m, run[1..], v)
  {
    m := Then(w, run[0]);
  }

  lemma StepFirst(w: World, x: Happening, m: World, rest: seq<Happening>, v: World)
    requires Leads(w, x, m) && Reaches(m, rest, v)
    ensures Reaches(w, [x] + rest, v)
  {
    assert ([x] + rest)[1..] == rest;
  }

  lemma {:induction false} ReachesThen(w: World, a: seq<Happening>, v: World, b: seq<Happening>, u: World)
    requires Reaches(w, a, v) && Reaches(v, b, u)
    ensures Reaches(w, a + b, u)
    decreases |a|
  {
    if a == [] {
      assert a + b == b;
    } else {
      var m := FirstStep(w, a, v);
      ReachesThen(m, a[1..], v, b, u);
      StepFirst(w, a[0], m, a[1..] + b, u);
      assert [a[0]] + (a[1..] + b) == a + b;
    }
  }

  lemma RunTwo(w: World, x: Happening, w1: World, y: Happening, w2: World)
    requires Leads(w, x, w1) && Leads(w1, y, w2)
    ensures Reaches(w, [x, y], w2)
  {
    assert Reaches(w2, [], w2);
    StepFirst(w1, y, w2, [], w2);
    StepFirst(w, x, w1, [y] + [], w2);
    assert [x] + ([y] + []) == [x, y];
  }

  lemma RunThree(w: World, x: Happening, w1: World, y: Happening, w2: World, z: Happening, w3: World)
    requires Leads(w, x, w1) && Leads(w1, y, w2) && Leads(w2, z, w3)
    ensures Reaches(w, [x, y, z], w3)
  {
    RunTwo(w1, y, w2, z, w3);
    StepFirst(w, x, w1, [y, z], w3);
    assert [x] + [y, z] == [x, y, z];
  }

  /** Served by connection 0, and the row interrupted while connection 0 still holds the stream. */
  ghost predicate Served(w: World, s: Session, e: Entry) {
    && NewSession(ID, ID, ID, START, 100, 0) == Ok(s)
    && !e.closed && e.attached && !e.ended && e.lease == 1 && e.expiresAt == s.expiresAt && e.reconnectBy == ZERO_TIME
    && w == World(Some(s), [], [e], Some(0), map[0 := Serving(Handle(0, 1), 0)])
  }

  lemma StartIsServed() returns (w: World, s: Session, e: Entry)
    ensures Reaches(EMPTY_WORLD, LEFT[..3], w) && Served(w, s, e)
  {
    EventsAreValid();
    s := NewSession(ID, ID, ID, START, 100, 0).value;
    e := FreshEntry(s.expiresAt, OpenStream(s, Fixture(IsChinese(s.language)), IsChinese(s.language)).value);
    w := World(Some(s), [], [e], Some(0), map[0 := Serving(Handle(0, 1), 0)]);
    var created := World(Some(s), [], [], None, map[0 := Created(s)]);
    var checked := World(Some(s), [], [], None, map[0 := Checked(s)]);
    assert Leads(EMPTY_WORLD, LEFT[0], created);
    assert Leads(created, LEFT[1], checked);
    assert Leads(checked, LEFT[2], w);
    RunThree(EMPTY_WORLD, LEFT[0], created, LEFT[1], checked, LEFT[2], w);
    assert [LEFT[0], LEFT[1], LEFT[2]] == LEFT[..3];
  }

  ghost predicate Abandoned(w: World, s: Session, e: Entry) {
    && s.state.Interrupted? && s.reconnectBy.Some? && s.expiresAt == e.expiresAt && 300 < s.expiresAt
       && 300 < s.reconnectBy.value
    && !e.closed && e.attached && !e.ended && e.lease == 1 && e.reconnectBy == ZERO_TIME
    && w == World(Some(s), [], [e], Some(0), map[0 := Detaching(Handle(0, 1), s.reconnectBy)])
  }

  lemma InterruptedSession(s: Session)
    requires NewSession(ID, ID, ID, START, 100, 0) == Ok(s)
    ensures var u := Interrupt(s, 200, DEFAULT_RECONNECT_WINDOW);
            && u.Ok? && u.value.state.Interrupted? && u.value.reconnectBy.Some? && 300 < u.value.reconnectBy.value
            && u.value.expiresAt == s.expiresAt && 300 < s.expiresAt && u.value.version == s.version + 1
  {}

  lemma SavingInterrupts(w: World, s: Session, u: Session, e: Entry)
    requires w == World(Some(s), [], [e], Some(0), map[0 := Saving(Some(Handle(0, 1)), ForInterrupt, s, u)])
    requires u.version == s.version + 1
    ensures Leads(w, Acts(0, Save(200)),
                  World(Some(Stamped(u, 200)), [], [e], Some(0), map[0 := Detaching(Handle(0, 1), u.reconnectBy)]))
  {}

  lemma LeavingInterruptsFirst(w: World, s: Session, e: Entry) returns (v: World, t: Session)
    requires Served(w, s, e)
    ensures Reaches(w, LEFT[3..], v) && Abandoned(v, t, e)
  {
    InterruptedSession(s);
    var u := Interrupt(s, 200, DEFAULT_RECONNECT_WINDOW).value;
    t := Stamped(u, 200);
    var h := Handle(0, 1);
    v := World(Some(t), [], [e], Some(0), map[0 := Detaching(h, u.reconnectBy)]);
    var retaining := World(Some(s), [], [e], Some(0), map[0 := Retaining(h)]);
    var saving := World(Some(s), [], [e], Some(0), map[0 := Saving(Some(h), ForInterrupt, s, u)]);
    assert Leads(w, LEFT[3], retaining);
    assert Leads(retaining, LEFT[4], saving);
    SavingInterrupts(saving, s, u, e);
    RunThree(w, LEFT[3], retaining, LEFT[4], saving, LEFT[5], v);
    assert [LEFT[3], LEFT[4], LEFT[5]] == LEFT[3..];
  }

  /** The client is told that its reconnect window has expired, well inside the window. */
  lemma ResumeMeetsHeldStream(w: World, s: Session, e: Entry) returns (v: World)
    requires Abandoned(w, s, e)
    ensures Reaches(w, RESUMED[..3], v)
    ensures v == w.(connections := w.connections[1 := Failing(None, "stream_timeout")])
  {
    v := w.(connections := w.connections[1 := Failing(None, "stream_timeout")]);
    var read := w.(connections := w.connections[1 := ResumeRead(s, RESUME)]);
    var found := w.(connections := w.connections[1 := ResumeFound(s, RESUME, 0)]);
    assert Leads(w, RESUMED[0], read);
    assert Leads(read, RESUMED[1], found);
    assert Leads(found, RESUMED[2], v);
    RunThree(w, RESUMED[0], read, RESUMED[1], found, RESUMED[2], v);
    assert [RESUMED[0], RESUMED[1], RESUMED[2]] == RESUMED[..3];
  }

  lemma FailureIsSaved(w: World, s: Session) returns (v: World)
    requires w.row == Some(s) && s.state.Interrupted? && 1 in w.connections
             && w.connections[1] == Failing(None, "stream_timeout")
    ensures Reaches(w, RESUMED[3..], v)
    ensures v.row.Some? && v.row.value.state.Failed? && v.row.value.lastErrorCode == "stream_timeout"
  {
    var saving := Then(w, RESUMED[3]);
    v := Then(saving, RESUMED[4]);
    RunTwo(w, RESUMED[3], saving, RESUMED[4], v);
    assert [RESUMED[3], RESUMED[4]] == RESUMED[3..];
  }

  /** From the empty world: a resume 100 nanoseconds after the interruption, far inside the window of
      90 seconds, finds the stream still attached and fails the session for good. */
  lemma QuickResumeFailsTheSession() returns (before: World, after: World)
    ensures Reachable(before) && before.row.Some? && before.row.value.state.Interrupted?
    ensures before.row.value.reconnectBy.Some? && 300 < before.row.value.reconnectBy.value
    ensures 1 in before.connections && before.connections[1] == Failing(None, "stream_timeout")
    ensures Reachable(after) && after.row.Some? && after.row.value.state.Failed?
  {
    var w1, s, e := StartIsServed();
    var w2, t := LeavingInterruptsFirst(w1, s, e);
    ReachesThen(EMPTY_WORLD, LEFT[..3], w1, LEFT[3..], w2);
    before := ResumeMeetsHeldStream(w2, t, e);
    ReachesThen(EMPTY_WORLD, LEFT[..3] + LEFT[3..], w2, RESUMED[..3], before);
    after := FailureIsSaved(before, t);
    ReachesThen(EMPTY_WORLD, LEFT[..3] + LEFT[3..] + RESUMED[..3], before, RESUMED[3..], after);
  }
}
