/** The deterministic provider stream of internal/realtime/mock_stream.go and the check the
    controller applies to its updates. */
module RealtimeProvider {
  import opened Common
  import opened Strings
  import opened RealtimeSession

  datatype Segment = Segment(endMs: int64, text: string)

  datatype Update = Update(revision: int, text: string, finalThroughMs: int)

  datatype StreamError = Canceled | ProviderConflict | ProviderGap | ProviderFrame

  /** The state of one provider stream. The last three fields are history: the frames it has
      taken, and how often Finish and Close have reached it. */
  datatype Provider = Provider(
    segments: seq<Segment>, chinese: bool, frameDurationMs: int, maxFrameBytes: nat,
    nextSequence: int, lastCapturedMs: int, emitted: nat, revision: int, closed: bool, finished: bool,
    pushed: seq<AudioEvent>, finishes: nat, closes: nat)

  predicate WellFormed(p: Provider) { p.emitted <= |p.segments| }

  function OpenStream(s: Session, segments: seq<Segment>, chinese: bool): Option<Provider> {
    if s.encoding != "pcm_s16le" || !ValidSampleRate(s.sampleRateHz) || s.channels != 1 || s.frameDurationMs < 20
        || s.frameDurationMs > 100
    then None
    else Some(Provider(segments, chinese, s.frameDurationMs, MaximumFrameBytes(s), 0, 0, 0, 0, false, false, [], 0, 0))
  }

  /** How many leading segments have been emitted once everything ending by `through` is out. */
  function EmitThrough(segments: seq<Segment>, from: nat, through: int): (n: nat)
    requires from <= |segments|
    ensures from <= n <= |segments|
    ensures forall i :: from <= i < n ==> segments[i].endMs <= through
    ensures n < |segments| ==> segments[n].endMs > through
    decreases |segments| - from
  {
    if from < |segments| && segments[from].endMs <= through then EmitThrough(segments, from + 1, through) else from
  }

  function JoinText(segments: seq<Segment>, chinese: bool): string {
    if segments == [] then ""
    else if |segments| == 1 then segments[0].text
    else JoinText(segments[..|segments| - 1], chinese) + (if chinese then "" else " ") + segments[|segments| - 1].text
  }

  /** The end of the frame, computed in 64-bit arithmetic as the source does. */
  function EndOfFrame(capturedAtMs: int64, frameDurationMs: int): int64 {
    WrapInt64(capturedAtMs + frameDurationMs)
  }

  /** Why a frame is refused, if it is. */
  function Refusal(p: Provider, f: AudioEvent, canceled: bool): Option<StreamError> {
    if canceled then Some(Canceled)
    else if p.closed || p.finished then Some(ProviderConflict)
    else if f.sequence != p.nextSequence then Some(ProviderGap)
    else if PcmBytes(f) == 0 || PcmBytes(f) > p.maxFrameBytes || PcmBytes(f) % 2 != 0 || f.capturedAtMs < 0
            || (f.sequence > 0 && f.capturedAtMs < p.lastCapturedMs) then Some(ProviderFrame)
    else None
  }

  /** The stream after taking a frame, and the update this makes visible. */
  function Take(p: Provider, f: AudioEvent): (Provider, Option<Update>)
    requires WellFormed(p)
  {
    var taken := p.(nextSequence := p.nextSequence + 1, lastCapturedMs := f.capturedAtMs, pushed := p.pushed + [f]);
    var n := EmitThrough(p.segments, p.emitted, EndOfFrame(f.capturedAtMs, p.frameDurationMs));
    if n == p.emitted then (taken, None)
    else (taken.(emitted := n, revision := p.revision + 1),
          Some(Update(p.revision + 1, JoinText(p.segments[..n], p.chinese), p.segments[n - 1].endMs)))
  }

  function Push(p: Provider, f: AudioEvent, canceled: bool): Result<(Provider, Option<Update>), StreamError>
    requires WellFormed(p)
  {
    match Refusal(p, f, canceled)
    case Some(e) => Err(e)
    case None => Ok(Take(p, f))
  }

  function Finish(p: Provider, canceled: bool): (Provider, Option<StreamError>) {
    if canceled then (p.(finishes := p.finishes + 1), Some(Canceled))
    else if p.closed || p.finished || p.nextSequence == 0 then (p.(finishes := p.finishes + 1), Some(ProviderConflict))
    else (p.(finished := true, finishes := p.finishes + 1), None)
  }

  /** The transcript Finish returns: that of the whole fixture, whatever was emitted before. */
  function FinalResult(p: Provider): ProviderResult {
    ProviderResult(JoinText(p.segments, p.chinese), if p.chinese then "zh-CN" else "en-US", "mock_asr")
  }

  function Close(p: Provider): Provider { p.(closed := true, closes := p.closes + 1) }

  /** validTranscriptUpdate: the controller's check of an update against the frame that caused it. */
  predicate ValidUpdate(u: Update, lastRevision: int, f: AudioEvent, frameDurationMs: int) {
    && u.revision > lastRevision && u.finalThroughMs >= 0 && frameDurationMs > 0
    && u.finalThroughMs <= EndOfFrame(f.capturedAtMs, frameDurationMs)
    && Utf8Length(u.text) <= MAX_TRANSCRIPT_BYTES
  }

  /** What the fixture must offer: a timeline that does not start before zero and short texts. */
  ghost predicate FixtureOk(segments: seq<Segment>, chinese: bool) {
    && (forall i :: 0 <= i < |segments| ==> segments[i].endMs >= 0)
    && (forall n :: 0 <= n <= |segments| ==> Utf8Length(JoinText(segments[..n], chinese)) <= MAX_TRANSCRIPT_BYTES)
  }

  const ENGLISH_FIXTURE: seq<Segment> := [Segment(500, "Welcome to"), Segment(1000, "VoiceAsset.")]
  const CHINESE_FIXTURE: seq<Segment> := [
    Segment(450, "\U{6b22}\U{8fce}\U{4f7f}\U{7528}"),
    Segment(1000, "\U{8bed}\U{97f3}\U{8d44}\U{4ea7}\U{3002}")]

  /** isChinese: which fixture the mock provider decodes for a language tag. */
  predicate IsChinese(language: string) {
    && |language| >= 2
    && (language[0] == 'z' || language[0] == 'Z') && (language[1] == 'h' || language[1] == 'H')
    && (|language| == 2 || language[2] == '-' || language[2] == '_')
  }

  function Fixture(chinese: bool): seq<Segment> { if chinese then CHINESE_FIXTURE else ENGLISH_FIXTURE }

  function TotalText(segments: seq<Segment>): nat {
    if segments == [] then 0 else TotalText(segments[..|segments| - 1]) + |segments[|segments| - 1].text| + 1
  }

  lemma {:induction false} JoinTextBound(segments: seq<Segment>, chinese: bool)
    ensures |JoinText(segments, chinese)| <= TotalText(segments)
  {
    if |segments| > 1 {
      JoinTextBound(segments[..|segments| - 1], chinese);
    }
  }

  lemma TwoSegmentFixture(a: Segment, b: Segment, chinese: bool)
    requires a.endMs >= 0 && b.endMs >= 0 && |a.text| + |b.text| <= 100
    ensures FixtureOk([a, b], chinese)
  {
    var fixture := [a, b];
    forall n | 0 <= n <= 2
      ensures Utf8Length(JoinText(fixture[..n], chinese)) <= MAX_TRANSCRIPT_BYTES
    {
      var part := fixture[..n];
      JoinTextBound(part, chinese);
      Utf8LengthBound(JoinText(part, chinese));
      assert fixture[..0] == [] && fixture[..1] == [a] && fixture[..2] == [a, b];
      assert [a][..0] == [] && [a, b][..1] == [a];
      assert TotalText([]) == 0;
      assert TotalText([a]) == |a.text| + 1;
      assert TotalText([a, b]) == |a.text| + |b.text| + 2;
    }
  }

  /** Both fixtures the mock provider decodes meet what the controller needs. */
  lemma FixturesOk()
    ensures FixtureOk(ENGLISH_FIXTURE, false)
    ensures FixtureOk(CHINESE_FIXTURE, true)
  {
    TwoSegmentFixture(ENGLISH_FIXTURE[0], ENGLISH_FIXTURE[1], false);
    TwoSegmentFixture(CHINESE_FIXTURE[0], CHINESE_FIXTURE[1], true);
  }

  /** Two letters, a hyphen and two letters make a language tag. */
  lemma TwoPartTag(tag: string)
    requires |tag| == 5 && tag[2] == '-'
    requires IsLetter(tag[0]) && IsLetter(tag[1]) && IsLetter(tag[3]) && IsLetter(tag[4])
    ensures LanguageTag(tag)
  {
    var rest := tag[2..];
    assert tag[1..][1..] == rest && tag[1..][0] == tag[1];
    assert Span(rest, IsLetter) == 0;
    assert Span(tag[1..], IsLetter) == 1;
    assert Span(tag, IsLetter) == 2;
    var region := rest[1..];
    assert region == [tag[3], tag[4]] && region[1..] == [tag[4]] && region[1..][1..] == [];
    assert Span(region[1..], IsAlphanumeric) == 1;
    assert Span(region, IsAlphanumeric) == 2;
    assert rest[3..] == [] && Subtags(rest[3..]);
  }

  /** A fixture of two short segments with no blank at either end has an acceptable transcript. */
  lemma JoinedPair(a: Segment, b: Segment, chinese: bool)
    requires 1 <= |a.text| && 1 <= |b.text| && |a.text| + |b.text| <= 100
    requires !IsSpace(a.text[0]) && !IsSpace(b.text[|b.text| - 1])
    ensures var text := JoinText([a, b], chinese);
            text != "" && TrimSpace(text) == text && Utf8Length(text) <= MAX_TRANSCRIPT_BYTES
  {
    assert [a, b][..1] == [a];
    var text := JoinText([a, b], chinese);
    assert text[0] == a.text[0] && text[|text| - 1] == b.text[|b.text| - 1];
    TrimSpaceTrims(text);
    Utf8LengthBound(text);
  }

  lemma MockNames(chinese: bool)
    ensures var tag := if chinese then "zh-CN" else "en-US";
            TrimSpace(tag) == tag && LanguageTag(tag)
    ensures TrimSpace("mock_asr") == "mock_asr" && ProviderId("mock_asr")
  {
    var tag := if chinese then "zh-CN" else "en-US";
    TwoPartTag(tag);
    TrimSpaceTrims(tag);
    TrimSpaceTrims("mock_asr");
  }

  /** The mock's transcript is already normalized and always acceptable, so finishing a stream of the
      mock provider never leads to a rejected result. */
  lemma FixtureResultIsAccepted(p: Provider)
    requires p.segments == Fixture(p.chinese)
    ensures NormalizeResult(FinalResult(p)) == FinalResult(p) && ValidResult(FinalResult(p))
  {
    var a, b := p.segments[0], p.segments[1];
    assert p.segments == [a, b];
    JoinedPair(a, b, p.chinese);
    MockNames(p.chinese);
  }

  /** The provider has taken exactly the given frames of the session. */
  ghost predicate InStep(p: Provider, s: Session, frames: seq<AudioEvent>) {
    && WellFormed(p)
    && p.pushed == frames
    && p.nextSequence == |frames|
    && p.lastCapturedMs == (if frames == [] then 0 else frames[|frames| - 1].capturedAtMs)
    && p.maxFrameBytes == MaximumFrameBytes(s)
    && p.frameDurationMs == s.frameDurationMs
    && p.revision >= 0
  }

  lemma WrapFacts(x: int64, d: int)
    requires 0 <= x && 0 <= d <= 100
    ensures EndOfFrame(x, d) == x + d || EndOfFrame(x, d) < 0
  {}

  /** A frame the session has accepted is never refused by an open provider that has taken every
      frame before it, and the update it causes passes the controller's revision and timeline
      checks. The latter holds although the capture time may be so large that the end of the frame
      wraps around. */
  lemma AcceptedFrameIsPushed(p: Provider, s: Session, frames: seq<AudioEvent>, f: AudioEvent, lastRevision: int)
    requires 20 <= s.frameDurationMs <= 100 && Counts(s, frames + [f]) && InStep(p, s, frames)
    requires !p.closed && !p.finished && lastRevision <= p.revision
    requires FixtureOk(p.segments, p.chinese)
    ensures Push(p, f, false).Ok?
    ensures InStep(Push(p, f, false).value.0, s, frames + [f])
    ensures var u := Push(p, f, false).value.1;
            u.Some? ==> ValidUpdate(u.value, lastRevision, f, s.frameDurationMs)
                        && u.value.revision == Push(p, f, false).value.0.revision
    ensures lastRevision <= Push(p, f, false).value.0.revision
  {
    WrapFacts(f.capturedAtMs, s.frameDurationMs);
    var all := frames + [f];
    assert all[|frames|] == f;
    if frames != [] {
      assert all[|frames| - 1] == frames[|frames| - 1];
    }
  }

  /** What has been emitted after a frame depends only on the latest end time, not on how the
      audio before it was divided into frames or connections. */
  lemma {:induction false} EmissionIsPathIndependent(segments: seq<Segment>, from: nat, earlier: int, later: int)
    requires from <= |segments| && earlier <= later
    ensures EmitThrough(segments, EmitThrough(segments, from, earlier), later) == EmitThrough(segments, from, later)
    decreases |segments| - from
  {
    if from < |segments| && segments[from].endMs <= earlier {
      EmissionIsPathIndependent(segments, from + 1, earlier, later);
    }
  }

  /** Scans forward over the segments that end by `through`. */
  method EmittedBy(segments: seq<Segment>, from: nat, through: int) returns (n: nat)
    requires from <= |segments|
    ensures n == EmitThrough(segments, from, through)
  {
    n := from;
    while n < |segments| && segments[n].endMs <= through
      invariant from <= n <= |segments|
      invariant EmitThrough(segments, from, through) == EmitThrough(segments, n, through)
    {
      n := n + 1;
    }
  }

  method JoinSegments(segments: seq<Segment>, chinese: bool) returns (text: string)
    ensures text == JoinText(segments, chinese)
  {
    text := "";
    for i := 0 to |segments|
      invariant text == JoinText(segments[..i], chinese)
    {
      assert segments[..i + 1][..i] == segments[..i];
      text := if i == 0 then segments[i].text else text + (if chinese then "" else " ") + segments[i].text;
    }
    assert segments[..|segments|] == segments;
  }

  /** The stream object itself, updated in place. */
  class MockStream {
    const segments: seq<Segment>
    const chinese: bool
    const frameDurationMs: int
    const maxFrameBytes: nat
    var nextSequence: int
    var lastCapturedMs: int
    var emittedSegments: nat
    var revision: int
    var closed: bool
    var finished: bool
    ghost var pushed: seq<AudioEvent>
    ghost var finishes: nat
    ghost var closes: nat

    ghost predicate Valid() reads this { emittedSegments <= |segments| }

    ghost function View(): Provider reads this {
      Provider(segments, chinese, frameDurationMs, maxFrameBytes, nextSequence, lastCapturedMs,
               emittedSegments, revision, closed, finished, pushed, finishes, closes)
    }

    constructor (s: Session, segments: seq<Segment>, chinese: bool)
      requires OpenStream(s, segments, chinese).Some?
      ensures Valid() && View() == OpenStream(s, segments, chinese).value
    {
      this.segments := segments;
      this.chinese := chinese;
      frameDurationMs := s.frameDurationMs;
      maxFrameBytes := MaximumFrameBytes(s);
      nextSequence, lastCapturedMs, emittedSegments, revision, closed, finished := 0, 0, 0, 0, false, false;
      pushed, finishes, closes := [], 0, 0;
    }

    /** The checks Push makes before it changes anything. */
    method CheckFrame(f: AudioEvent, canceled: bool) returns (refusal: Option<StreamError>)
      ensures refusal == Refusal(View(), f, canceled)
    {
      if canceled { return Some(Canceled); }
      if closed || finished { return Some(ProviderConflict); }
      if f.sequence != nextSequence { return Some(ProviderGap); }
      if PcmBytes(f) == 0 || PcmBytes(f) > maxFrameBytes || PcmBytes(f) % 2 != 0 || f.capturedAtMs < 0
         || (f.sequence > 0 && f.capturedAtMs < lastCapturedMs)
      {
        return Some(ProviderFrame);
      }
      return None;
    }

    method TakeFrame(f: AudioEvent) returns (update: Option<Update>)
      requires Valid()
      modifies this
      ensures Valid() && (View(), update) == Take(old(View()), f)
    {
      nextSequence := nextSequence + 1;
      lastCapturedMs := f.capturedAtMs;
      pushed := pushed + [f];
      var through := EndOfFrame(f.capturedAtMs, frameDurationMs);
      var emitThrough := EmittedBy(segments, emittedSegments, through);
      if emitThrough == emittedSegments { return None; }
      emittedSegments := emitThrough;
      revision := revision + 1;
      var text := JoinSegments(segments[..emitThrough], chinese);
      return Some(Update(revision, text, segments[emitThrough - 1].endMs));
    }

    method PushFrame(f: AudioEvent, canceled: bool) returns (r: Result<Option<Update>, StreamError>)
      requires Valid()
      modifies this
      ensures Valid()
      ensures match Push(old(View()), f, canceled)
              case Err(e) => r == Err(e) && View() == old(View())
              case Ok(p) => r == Ok(p.1) && View() == p.0
    {
      var refusal := CheckFrame(f, canceled);
      if refusal.Some? { return Err(refusal.value); }
      var update := TakeFrame(f);
      return Ok(update);
    }

    method FinishStream(canceled: bool) returns (r: Result<ProviderResult, StreamError>)
      requires Valid()
      modifies this
      ensures Valid()
      ensures View() == Finish(old(View()), canceled).0
      ensures match Finish(old(View()), canceled).1
              case Some(failure) => r == Err(failure)
              case None => r == Ok(FinalResult(old(View())))
    {
      finishes := finishes + 1;
      if canceled { return Err(Canceled); }
      if closed || finished || nextSequence == 0 { return Err(ProviderConflict); }
      finished := true;
      var text := JoinSegments(segments, chinese);
      return Ok(ProviderResult(text, if chinese then "zh-CN" else "en-US", "mock_asr"));
    }

    method CloseStream()
      requires Valid()
      modifies this
      ensures Valid() && View() == Close(old(View()))
    {
      closed := true;
      closes := closes + 1;
    }
  }
}
