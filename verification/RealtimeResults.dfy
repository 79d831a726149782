/** Whose transcript a completed session holds: over every run of the protocol it is the result that
    the provider gave to the connection that completed the session. */
module RealtimeResults {
  import opened Common
  import opened Strings
  import opened RealtimeSession
  import opened RealtimeProvider
  import opened RealtimeHub
  import opened RealtimeProtocol
  import opened RealtimeRuns
  import RealtimeAnswers

  /** A result the provider gave, normalized, and the connection it gave it to. */
  type Given = (nat, ProviderResult)

  /** What the happening adds: the answer to a finish that was not canceled. */
  function GivenIn(x: Happening): set<Given> {
    if x.Acts? && x.action.FinishLease? && !x.action.canceled
    then {(x.connection, NormalizeResult(x.action.result))} else {}
  }

  function GivenBy(run: seq<Happening>): set<Given> {
    set i | 0 <= i < |run| && run[i].Acts? && run[i].action.FinishLease? && !run[i].action.canceled ::
      (run[i].connection, NormalizeResult(run[i].action.result))
  }

  lemma GivenFirst(run: seq<Happening>)
    requires run != []
    ensures GivenBy(run) == GivenIn(run[0]) + GivenBy(run[1..])
  {
    forall g | g in GivenBy(run)
      ensures g in GivenIn(run[0]) + GivenBy(run[1..])
    {
      var i :| 0 <= i < |run| && run[i].Acts? && run[i].action.FinishLease? && !run[i].action.canceled
               && g == (run[i].connection, NormalizeResult(run[i].action.result));
      if i > 0 {
        assert run[1..][i - 1] == run[i];
      }
    }
    forall g | g in GivenBy(run[1..])
      ensures g in GivenBy(run)
    {
      var rest := run[1..];
      var i :| 0 <= i < |rest| && rest[i].Acts? && rest[i].action.FinishLease? && !rest[i].action.canceled
               && g == (rest[i].connection, NormalizeResult(rest[i].action.result));
      assert run[i + 1] == rest[i];
    }
  }

  /** The connection has no result but its own, and completes the session with nothing else. */
  predicate OwnResult(c: nat, k: Connection, given: set<Given>) {
    match k
    case Completing(_, r) => (c, r) in given && NormalizeResult(r) == r
    case Saving(_, purpose, _, u) =>
      if purpose.ForComplete? then u.state.Completed? && (c, StoredResult(u)) in given else !u.state.Completed?
    case _ => true
  }

  ghost predicate RowGiven(row: Option<Session>, given: set<Given>) {
    row.Some? && row.value.state.Completed? ==> exists c :: (c, StoredResult(row.value)) in given
  }

  ghost predicate ResultInv(w: World, given: set<Given>) {
    && RowGiven(w.row, given)
    && (forall c :: c in w.connections ==> OwnResult(c, w.connections[c], given))
  }

  lemma MoreGiven(w: World, given: set<Given>, more: set<Given>)
    requires ResultInv(w, given) && given <= more
    ensures ResultInv(w, more)
  {
    forall c | c in w.connections
      ensures OwnResult(c, w.connections[c], more)
    {
      assert OwnResult(c, w.connections[c], given);
    }
  }

  /** Only connection c changes, or the row as well. */
  lemma MoveKeepsResults(w: World, v: World, c: nat, given: set<Given>)
    requires ResultInv(w, given) && c in v.connections && v.connections == w.connections[c := v.connections[c]]
    requires OwnResult(c, v.connections[c], given) && RowGiven(v.row, given)
    ensures ResultInv(v, given)
  {}

  // ---------------------------------------------------------------------------
  // The steps
  // ---------------------------------------------------------------------------

  lemma ReadCompleteOwn(w: World, c: nat, now: Time, given: set<Given>)
    requires ResultInv(w, given) && Ready(w, c, ReadComplete(now))
    ensures OwnResult(c, ReadCompleteStep(w, c, now).connections[c], given)
  {
    var k := w.connections[c];
    assert OwnResult(c, k, given);
    if Complete(w.row.value, k.result, now).Ok? {
      RealtimeAnswers.CompletionStoresItsResult(w.row.value, k.result, now);
    }
  }

  lemma FinishOwn(w: World, c: nat, canceled: bool, result: ProviderResult, given: set<Given>)
    requires Ready(w, c, FinishLease(canceled, result)) && (!canceled ==> (c, NormalizeResult(result)) in given)
    ensures OwnResult(c, FinishStep(w, c, canceled, result).connections[c], given)
  {
    NormalizeIdempotent(result);
  }

  /** A save that completes the session stores the result of the connection that saves. */
  lemma SaveStoresOwnResult(w: World, c: nat, clock: Time, given: set<Given>)
    requires ResultInv(w, given) && Ready(w, c, Save(clock))
    ensures var v := SaveStep(w, c, clock);
            && OwnResult(c, v.connections[c], given)
            && (v.row != w.row && v.row.value.state.Completed? ==> (c, StoredResult(v.row.value)) in given)
  {
    assert OwnResult(c, w.connections[c], given);
  }

  lemma ReadOwn(w: World, c: nat, a: Action, given: set<Given>)
    requires ResultInv(w, given) && Ready(w, c, a)
    requires a.ReadResume? || a.ReadAudio? || a.RetryAudio? || a.ReadInterrupt? || a.ReadFinish? || a.ReadFailure?
    ensures OwnResult(c, Next(w, c, a).connections[c], given) && Next(w, c, a).row == w.row
  {}

  lemma OtherOwn(w: World, c: nat, a: Action, given: set<Given>)
    requires Ready(w, c, a)
    requires a.LookUp? || a.Open? || a.ReadForResume? || a.FindStream? || a.Reattach? || a.SendFrame? || a.Leave?
             || a.Breakdown? || a.DetachLease? || a.CloseLease?
    ensures OwnResult(c, Next(w, c, a).connections[c], given) && Next(w, c, a).row == w.row
  {}

  lemma NextKeepsResults(w: World, c: nat, a: Action, given: set<Given>)
    requires ResultInv(w, given) && Ready(w, c, a)
    ensures ResultInv(Next(w, c, a), given + GivenIn(Acts(c, a)))
  {
    var more, v := given + GivenIn(Acts(c, a)), Next(w, c, a);
    MoreGiven(w, given, more);
    if a.Start? {
      assert OwnResult(c, v.connections[c], more);
    } else if a.Save? {
      SaveStoresOwnResult(w, c, a.clock, more);
    } else if a.ReadComplete? {
      ReadCompleteOwn(w, c, a.now, more);
    } else if a.FinishLease? {
      FinishOwn(w, c, a.canceled, a.result, more);
    } else if a.ReadResume? || a.ReadAudio? || a.RetryAudio? || a.ReadInterrupt? || a.ReadFinish? || a.ReadFailure? {
      ReadOwn(w, c, a, more);
    } else {
      OtherOwn(w, c, a, more);
    }
    MoveChangesOne(w, c, a);
    MoveKeepsResults(w, v, c, more);
  }

  lemma MoveChangesOne(w: World, c: nat, a: Action)
    requires Ready(w, c, a)
    ensures var v := Next(w, c, a); c in v.connections && v.connections == w.connections[c := v.connections[c]]
  {}

  lemma {:induction false} RunKeepsResults(w: World, run: seq<Happening>, given: set<Given>)
    requires ResultInv(w, given) && RealtimeRuns.IsRun(w, run)
    ensures ResultInv(RealtimeRuns.Run(w, run), given + GivenBy(run))
    decreases |run|
  {
    if run == [] {
      assert given + GivenBy(run) == given;
    } else {
      var next := given + GivenIn(run[0]);
      if run[0].Acts? {
        NextKeepsResults(w, run[0].connection, run[0].action, given);
      } else {
        assert ResultInv(Then(w, run[0]), next);
      }
      RunKeepsResults(Then(w, run[0]), run[1..], next);
      GivenFirst(run);
      assert next + GivenBy(run[1..]) == given + GivenBy(run);
    }
  }

  // ---------------------------------------------------------------------------
  // The transcript
  // ---------------------------------------------------------------------------

  /** Over every run: a completed row holds, field by field and trimmed, the result that the provider
      gave to some connection when that connection finished the stream. */
  lemma CompletedRowHoldsTheProvidersResult(run: seq<Happening>) returns (i: nat)
    requires RealtimeRuns.IsRun(EMPTY_WORLD, run)
    requires var w := RealtimeRuns.Run(EMPTY_WORLD, run); w.row.Some? && w.row.value.state.Completed?
    ensures i < |run| && run[i].Acts? && run[i].action.FinishLease? && !run[i].action.canceled
    ensures var row, r := RealtimeRuns.Run(EMPTY_WORLD, run).row.value, run[i].action.result;
            && row.finalTranscript == TrimSpace(r.text) && row.finalLanguage == TrimSpace(r.language)
            && row.finalProviderId == TrimSpace(r.providerId)
  {
    RunKeepsResults(EMPTY_WORLD, run, {});
    var row := RealtimeRuns.Run(EMPTY_WORLD, run).row.value;
    var c :| (c, StoredResult(row)) in {} + GivenBy(run);
    i :| 0 <= i < |run| && run[i].Acts? && run[i].action.FinishLease? && !run[i].action.canceled
         && (c, StoredResult(row)) == (run[i].connection, NormalizeResult(run[i].action.result));
  }

  /** And in the step that completes it, the connection that saves is the one that was given it. */
  lemma SaverIsTheFinisher(run: seq<Happening>, c: nat, clock: Time) returns (i: nat)
    requires RealtimeRuns.IsRun(EMPTY_WORLD, run) && Ready(RealtimeRuns.Run(EMPTY_WORLD, run), c, Save(clock))
    requires var w := RealtimeRuns.Run(EMPTY_WORLD, run);
             && !w.row.value.state.Completed? && SaveStep(w, c, clock).row.value.state.Completed?
    ensures i < |run| && run[i].Acts? && run[i].connection == c && run[i].action.FinishLease? && !run[i].action.canceled
    ensures var row := SaveStep(RealtimeRuns.Run(EMPTY_WORLD, run), c, clock).row.value;
            StoredResult(row) == NormalizeResult(run[i].action.result)
  {
    RunKeepsResults(EMPTY_WORLD, run, {});
    var w := RealtimeRuns.Run(EMPTY_WORLD, run);
    SaveStoresOwnResult(w, c, clock, {} + GivenBy(run));
    var row := SaveStep(w, c, clock).row.value;
    i :| 0 <= i < |run| && run[i].Acts? && run[i].action.FinishLease? && !run[i].action.canceled
         && (c, StoredResult(row)) == (run[i].connection, NormalizeResult(run[i].action.result));
  }

  // ---------------------------------------------------------------------------
  // The mock provider
  // ---------------------------------------------------------------------------

  /** The stream decodes the fixture of the language. */
  predicate Decodes(p: Provider, language: string) {
    p.segments == Fixture(IsChinese(language)) && p.chinese == IsChinese(language)
  }

  predicate KeepsLanguage(k: Connection, language: string) {
    (Starter(k) ==> k.session.language == language) && (k.Saving? ==> k.updated.language == language)
  }

  /** Everything about the session is in its language. */
  ghost predicate LanguageInv(w: World) {
    w.row.Some? ==>
      && (forall c :: c in w.connections ==> KeepsLanguage(w.connections[c], w.row.value.language))
      && (forall i :: 0 <= i < |w.entries| ==> Decodes(w.entries[i].stream, w.row.value.language))
  }

  /** A connection that has read the row saves in its language. */
  predicate ReadsRow(a: Action) {
    a.ReadResume? || a.ReadAudio? || a.RetryAudio? || a.ReadInterrupt? || a.ReadFinish? || a.ReadComplete?
        || a.ReadFailure?
  }

  lemma ReaderKeepsLanguage(w: World, c: nat, a: Action)
    requires Ready(w, c, a) && ReadsRow(a)
    ensures KeepsLanguage(Next(w, c, a).connections[c], w.row.value.language)
      || Next(w, c, a).connections[c] == w.connections[c]
  {}

  lemma OtherActorKeepsLanguage(w: World, c: nat, a: Action, language: string)
    requires Ready(w, c, a) && !a.Start? && !ReadsRow(a)
    requires c in w.connections ==> KeepsLanguage(w.connections[c], language)
    ensures KeepsLanguage(Next(w, c, a).connections[c], language)
  {}

  lemma ActorKeepsLanguage(w: World, c: nat, a: Action)
    requires LanguageInv(w) && Ready(w, c, a) && !a.Start? && w.row.Some?
    ensures KeepsLanguage(Next(w, c, a).connections[c], w.row.value.language)
  {
    if ReadsRow(a) {
      ReaderKeepsLanguage(w, c, a);
      assert c in w.connections ==> KeepsLanguage(w.connections[c], w.row.value.language);
    } else {
      OtherActorKeepsLanguage(w, c, a, w.row.value.language);
    }
  }

  lemma RowKeepsLanguage(w: World, c: nat, a: Action)
    requires LanguageInv(w) && Ready(w, c, a) && w.row.Some?
    ensures Next(w, c, a).row.Some? && Next(w, c, a).row.value.language == w.row.value.language
  {
    assert c in w.connections ==> KeepsLanguage(w.connections[c], w.row.value.language);
  }

  lemma StreamsKeepLanguage(w: World, c: nat, a: Action, i: nat)
    requires LanguageInv(w) && Ready(w, c, a) && w.row.Some? && i < |Next(w, c, a).entries|
    ensures Decodes(Next(w, c, a).entries[i].stream, w.row.value.language)
  {
    assert c in w.connections ==> KeepsLanguage(w.connections[c], w.row.value.language);
    assert i < |w.entries| ==> Decodes(w.entries[i].stream, w.row.value.language);
  }

  lemma FirstRowHasNoStream(w: World, c: nat, a: Action)
    requires Inv(w) && Ready(w, c, a) && w.row.None?
    ensures LanguageInv(Next(w, c, a))
  {
    forall d | d in w.connections
      ensures w.connections[d].Done?
    {
      assert KnowsRow(w.row, w.connections[d]);
    }
  }

  lemma NextKeepsLanguage(w: World, c: nat, a: Action)
    requires Inv(w) && LanguageInv(w) && Ready(w, c, a)
    ensures LanguageInv(Next(w, c, a))
  {
    if w.row.None? {
      FirstRowHasNoStream(w, c, a);
    } else {
      var v, language := Next(w, c, a), w.row.value.language;
      RowKeepsLanguage(w, c, a);
      MoveChangesOne(w, c, a);
      if a.Start? {
        assert v.connections[c].Done?;
      } else {
        ActorKeepsLanguage(w, c, a);
      }
      forall d | d in v.connections
        ensures KeepsLanguage(v.connections[d], language)
      {
        assert d != c ==> KeepsLanguage(w.connections[d], language);
      }
      forall i | 0 <= i < |v.entries|
        ensures Decodes(v.entries[i].stream, language)
      {
        StreamsKeepLanguage(w, c, a, i);
      }
    }
  }

  lemma BehindKeepsLanguage(w: World, i: nat, b: Background)
    requires LanguageInv(w) && i < |w.entries|
    ensures LanguageInv(Behind(w, i, b))
  {}

  /** Every finish is answered by the mock: with the transcript of the stream it reaches. */
  ghost predicate MockAnswers(w: World, run: seq<Happening>)
    requires RealtimeRuns.IsRun(w, run)
    decreases |run|
  {
    run == [] ||
    (MockAnswer(w, run[0]) && MockAnswers(Then(w, run[0]), run[1..]))
  }

  predicate MockAnswer(w: World, x: Happening)
    requires RealtimeRuns.Possible(w, x)
  {
    x.Acts? && x.action.FinishLease? ==>
      x.action.result == FinalResult(w.entries[w.connections[x.connection].handle.entry].stream)
  }

  /** The transcript of the fixture. */
  function MockResult(language: string): ProviderResult {
    var chinese := IsChinese(language);
    ProviderResult(JoinText(Fixture(chinese), chinese), if chinese then "zh-CN" else "en-US", "mock_asr")
  }

  lemma MockGives(w: World, x: Happening, g: Given)
    requires LanguageInv(w) && w.row.Some? && RealtimeRuns.Possible(w, x) && MockAnswer(w, x) && g in GivenIn(x)
    ensures g.1 == MockResult(w.row.value.language)
  {
    var p := w.entries[w.connections[x.connection].handle.entry].stream;
    assert Decodes(p, w.row.value.language);
    FixtureResultIsAccepted(p);
  }

  /** Once the session exists, all that a mock gives is the one transcript. */
  lemma {:induction false} MockGivesOneResult(w: World, run: seq<Happening>, g: Given)
    requires Inv(w) && RowInv(w) && LanguageInv(w) && RealtimeRuns.IsRun(w, run) && MockAnswers(w, run)
             && g in GivenBy(run)
    ensures var v := RealtimeRuns.Run(w, run);
            v.row.Some? && g.1 == MockResult(v.row.value.language) && (w.row.Some? ==> LanguageStays(w, v))
    decreases |run|
  {
    GivenFirst(run);
    var v := Then(w, run[0]);
    ThenKeepsInv(w, run[0]);
    ThenKeepsLanguage(w, run[0]);
    RunKeepsLanguage(v, run[1..]);
    if g in GivenIn(run[0]) {
      FinisherHasRow(w, run[0]);
      MockGives(w, run[0], g);
    } else {
      MockGivesOneResult(v, run[1..], g);
    }
  }

  ghost predicate LanguageStays(w: World, v: World) {
    w.row.Some? ==> v.row.Some? && v.row.value.language == w.row.value.language
  }

  lemma FinisherHasRow(w: World, x: Happening)
    requires Inv(w) && RealtimeRuns.Possible(w, x) && x.Acts? && x.action.FinishLease?
    ensures w.row.Some?
  {
    assert KnowsRow(w.row, w.connections[x.connection]);
  }

  lemma ThenKeepsInv(w: World, x: Happening)
    requires Inv(w) && RowInv(w) && RealtimeRuns.Possible(w, x)
    ensures Inv(Then(w, x)) && RowInv(Then(w, x))
  {
    if x.Acts? {
      RealtimeRuns.NextKeepsInv(w, x.connection, x.action);
      NextKeepsRow(w, x.connection, x.action);
    } else {
      BehindKeepsInv(w, x.entry, x.background);
    }
  }

  lemma ThenKeepsLanguage(w: World, x: Happening)
    requires Inv(w) && LanguageInv(w) && RealtimeRuns.Possible(w, x)
    ensures LanguageInv(Then(w, x)) && LanguageStays(w, Then(w, x))
  {
    if x.Acts? {
      NextKeepsLanguage(w, x.connection, x.action);
      if w.row.Some? {
        RowKeepsLanguage(w, x.connection, x.action);
      }
    } else {
      BehindKeepsLanguage(w, x.entry, x.background);
    }
  }

  lemma {:induction false} RunKeepsLanguage(w: World, run: seq<Happening>)
    requires Inv(w) && RowInv(w) && LanguageInv(w) && RealtimeRuns.IsRun(w, run)
    ensures LanguageStays(w, RealtimeRuns.Run(w, run)) && LanguageInv(RealtimeRuns.Run(w, run))
    decreases |run|
  {
    if run != [] {
      ThenKeepsInv(w, run[0]);
      ThenKeepsLanguage(w, run[0]);
      RunKeepsLanguage(Then(w, run[0]), run[1..]);
    }
  }

  /** With the mock provider a completed session holds the transcript of the fixture of its language,
      however often the client was disconnected meanwhile. */
  lemma MockTranscriptIsStored(run: seq<Happening>)
    requires RealtimeRuns.IsRun(EMPTY_WORLD, run) && MockAnswers(EMPTY_WORLD, run)
    requires var w := RealtimeRuns.Run(EMPTY_WORLD, run); w.row.Some? && w.row.value.state.Completed?
    ensures var row := RealtimeRuns.Run(EMPTY_WORLD, run).row.value; StoredResult(row) == MockResult(row.language)
  {
    RunKeepsResults(EMPTY_WORLD, run, {});
    var row := RealtimeRuns.Run(EMPTY_WORLD, run).row.value;
    var c :| (c, StoredResult(row)) in {} + GivenBy(run);
    MockGivesOneResult(EMPTY_WORLD, run, (c, StoredResult(row)));
  }

  lemma JoinTwo(a: Segment, b: Segment, chinese: bool)
    ensures JoinText([a, b], chinese) == a.text + (if chinese then "" else " ") + b.text
  {
    assert [a, b][..1] == [a] && [a, b][|[a, b]| - 1] == b;
    assert JoinText([a], chinese) == a.text;
  }

  const ENGLISH := "Welcome to VoiceAsset."
  const CHINESE := "\U{6b22}\U{8fce}\U{4f7f}\U{7528}\U{8bed}\U{97f3}\U{8d44}\U{4ea7}\U{3002}"

  /** In words. */
  lemma MockResultText(language: string)
    ensures MockResult(language) == if IsChinese(language) then ProviderResult(CHINESE, "zh-CN", "mock_asr")
                                    else ProviderResult(ENGLISH, "en-US", "mock_asr")
  {
    var f := Fixture(IsChinese(language));
    JoinTwo(f[0], f[1], IsChinese(language));
    assert f == [f[0], f[1]];
    assert f[0].text + (if IsChinese(language) then "" else " ") + f[1].text
           == if IsChinese(language) then CHINESE else ENGLISH;
  }

}
