/** Validation of correction proposals, internal/llm/validation.go, and the automatic approval that
    builds on it, internal/correction/processor.go. */
module Proposals {
  import opened Common
  import opened Splice
  import opened EditSize

  datatype Part = Part(id: string, startMs: int, endMs: int, text: Text)
  datatype Request = Request(language: Text, parts: seq<Part>, rules: nat, rulesValid: bool)
  datatype Change = Change(segmentId: string, original: Text, replacement: Text, confidence: real, reason: Text)
  datatype Proposal = Proposal(
    changes: seq<Change>, rawIsObject: bool, providerId: Text, model: Text, promptVersion: Text)

  /** The text predicates and the glossary of the request, which are left uninterpreted. */
  datatype Lexicon = Lexicon(
    blank: Text -> bool, validContent: (Text, nat) -> bool, applyGlossary: Text -> Text,
    numbersKept: (Text, Text) -> bool, unitsKept: (Text, Text) -> bool, negationsKept: (Text, Text) -> bool)

  datatype Problem =
    | Schema | OriginalMismatch | DuplicateSegment | InvalidChange | UnsupportedChange
    | NumbersChanged | UnitsChanged | NegationChanged | ChangeRatio | AggregateRatio

  const MAX_SEGMENTS := 2000
  const MAX_SEGMENT_RUNES := 10000
  const MAX_RULES := 500
  const MAX_CHANGES := 2000
  const MAX_REASON_RUNES := 500
  const MAX_REPLACEMENT_RATIO := 0.50
  const MAX_AGGREGATE_RATIO := 0.35

  // ---------------------------------------------------------------------------
  // The request
  // ---------------------------------------------------------------------------

  predicate ValidPart(x: Lexicon, p: Part) {
    !x.blank(p.id) && x.validContent(p.text, MAX_SEGMENT_RUNES) && p.startMs >= 0 && p.endMs >= p.startMs
  }

  predicate DistinctParts(parts: seq<Part>) {
    forall i, j :: 0 <= i < j < |parts| ==> parts[i].id != parts[j].id
  }

  predicate ValidRequest(x: Lexicon, r: Request) {
    && !x.blank(r.language) && 1 <= |r.parts| <= MAX_SEGMENTS && r.rules <= MAX_RULES && r.rulesValid
    && (forall p :: p in r.parts ==> ValidPart(x, p))
    && DistinctParts(r.parts)
  }

  method ValidateRequest(x: Lexicon, r: Request) returns (ok: bool)
    ensures ok <==> ValidRequest(x, r)
  {
    if x.blank(r.language) || |r.parts| < 1 || |r.parts| > MAX_SEGMENTS || r.rules > MAX_RULES {
      return false;
    }
    var ids: set<string> := {};
    for i := 0 to |r.parts|
      invariant forall p :: p in r.parts[..i] ==> ValidPart(x, p)
      invariant forall id :: id in ids <==> exists j :: 0 <= j < i && r.parts[j].id == id
      invariant DistinctParts(r.parts[..i])
    {
      var p := r.parts[i];
      if x.blank(p.id) || !x.validContent(p.text, MAX_SEGMENT_RUNES) || p.startMs < 0 || p.endMs < p.startMs {
        assert p in r.parts && !ValidPart(x, p);
        return false;
      }
      if p.id in ids {
        return false;
      }
      ids := ids + {p.id};
      assert r.parts[..i + 1] == r.parts[..i] + [p];
    }
    assert r.parts[..|r.parts|] == r.parts;
    return r.rulesValid;
  }

  // ---------------------------------------------------------------------------
  // The proposal
  // ---------------------------------------------------------------------------

  function TotalRunes(parts: seq<Part>): nat {
    if parts == [] then 0 else TotalRunes(parts[..|parts| - 1]) + |parts[|parts| - 1].text|
  }

  function ChangedRunes(changes: seq<Change>): nat {
    if changes == [] then 0
    else
      ChangedRunes(changes[..|changes| - 1])
      + Size(changes[|changes| - 1].original, changes[|changes| - 1].replacement)
  }

  /** The change quotes a segment of the request. */
  predicate Quotes(parts: seq<Part>, c: Change) {
    exists p :: p in parts && p.id == c.segmentId && p.text == c.original
  }

  predicate Repeats(changes: seq<Change>, k: nat)
    requires k < |changes|
  {
    exists j :: 0 <= j < k && changes[j].segmentId == changes[k].segmentId
  }

  predicate WellFormedChange(x: Lexicon, c: Change) {
    && x.validContent(c.replacement, MAX_SEGMENT_RUNES) && 0.0 <= c.confidence <= 1.0
    && x.validContent(c.reason, MAX_REASON_RUNES) && c.replacement != c.original
  }

  /** Exactly what the glossary does to the segment. */
  predicate Supported(x: Lexicon, c: Change) {
    x.applyGlossary(c.original) != c.original && c.replacement == x.applyGlossary(c.original)
  }

  /** The first check that change k fails, in the order of the source. */
  function ChangeProblem(x: Lexicon, parts: seq<Part>, changes: seq<Change>, k: nat): Option<Problem>
    requires k < |changes|
  {
    var c := changes[k];
    if !Quotes(parts, c) then Some(OriginalMismatch)
    else if Repeats(changes, k) then Some(DuplicateSegment)
    else if !WellFormedChange(x, c) then Some(InvalidChange)
    else if !Supported(x, c) then Some(UnsupportedChange)
    else if !x.numbersKept(c.original, c.replacement) then Some(NumbersChanged)
    else if !x.unitsKept(c.original, c.replacement) then Some(UnitsChanged)
    else if !x.negationsKept(c.original, c.replacement) then Some(NegationChanged)
    else if Ratio(c.original, c.replacement) > MAX_REPLACEMENT_RATIO then Some(ChangeRatio)
    else None
  }

  predicate ValidEnvelope(x: Lexicon, r: Request, p: Proposal) {
    ValidRequest(x, r) && |p.changes| <= MAX_CHANGES && p.rawIsObject && !x.blank(p.providerId) && !x.blank(p.model)
        && !x.blank(p.promptVersion)
  }

  function AggregateOf(r: Request, p: Proposal): real {
    if TotalRunes(r.parts) > 0 then ChangedRunes(p.changes) as real / TotalRunes(r.parts) as real else 0.0
  }

  /** The problem of the first change from k on that has one. */
  function FirstProblem(x: Lexicon, parts: seq<Part>, changes: seq<Change>, k: nat): (r: Option<Problem>)
    requires k <= |changes|
    ensures r.None? <==> forall j :: k <= j < |changes| ==> ChangeProblem(x, parts, changes, j).None?
    ensures r != Some(Schema) && r != Some(AggregateRatio)
    decreases |changes| - k
  {
    if k == |changes| then None
    else if ChangeProblem(x, parts, changes, k).Some? then ChangeProblem(x, parts, changes, k)
    else FirstProblem(x, parts, changes, k + 1)
  }

  /** The verdict of ValidateProposal: the change ratio, or what is wrong first. */
  function Verdict(x: Lexicon, r: Request, p: Proposal): Result<real, Problem> {
    if !ValidEnvelope(x, r, p) then Err(Schema)
    else if FirstProblem(x, r.parts, p.changes, 0).Some? then Err(FirstProblem(x, r.parts, p.changes, 0).value)
    else if AggregateOf(r, p) > MAX_AGGREGATE_RATIO then Err(AggregateRatio)
    else Ok(AggregateOf(r, p))
  }

  /** byId holds exactly the parts, under their ids. */
  ghost predicate Indexes(byId: map<string, Part>, parts: seq<Part>) {
    && (forall i :: 0 <= i < |parts| ==> parts[i].id in byId && byId[parts[i].id] == parts[i])
    && (forall id :: id in byId ==> byId[id] in parts && byId[id].id == id)
  }

  lemma QuotesIffIndexed(byId: map<string, Part>, parts: seq<Part>, c: Change)
    requires Indexes(byId, parts)
    ensures Quotes(parts, c) <==> c.segmentId in byId && byId[c.segmentId].text == c.original
  {}

  /** The segments of a request by id. */
  method IndexParts(parts: seq<Part>) returns (byId: map<string, Part>, total: nat)
    requires DistinctParts(parts)
    ensures Indexes(byId, parts)
    ensures total == TotalRunes(parts)
  {
    byId, total := map[], 0;
    for i := 0 to |parts|
      invariant Indexes(byId, parts[..i])
      invariant total == TotalRunes(parts[..i])
    {
      ghost var front := parts[..i];
      IndexOneMore(byId, parts, i);
      byId := byId[parts[i].id := parts[i]];
      assert parts[..i + 1][..i] == front;
      total := total + |parts[i].text|;
    }
    assert parts[..|parts|] == parts;
  }

  lemma IndexOneMore(byId: map<string, Part>, parts: seq<Part>, i: nat)
    requires DistinctParts(parts) && i < |parts| && Indexes(byId, parts[..i])
    ensures Indexes(byId[parts[i].id := parts[i]], parts[..i + 1])
  {
    assert parts[..i + 1] == parts[..i] + [parts[i]];
  }

  method CheckChange(x: Lexicon, byId: map<string, Part>, seen: set<string>, c: Change, ghost parts: seq<Part>,
                     ghost changes: seq<Change>, ghost k: nat)
    returns (problem: Option<Problem>, changed: nat)
    requires k < |changes| && c == changes[k]
    requires Quotes(parts, c) <==> c.segmentId in byId && byId[c.segmentId].text == c.original
    requires Repeats(changes, k) <==> c.segmentId in seen
    ensures problem == ChangeProblem(x, parts, changes, k)
    ensures problem.None? ==> changed == Size(c.original, c.replacement)
  {
    changed := 0;
    if c.segmentId !in byId || c.original != byId[c.segmentId].text { return Some(OriginalMismatch), 0; }
    if c.segmentId in seen { return Some(DuplicateSegment), 0; }
    if !x.validContent(c.replacement, MAX_SEGMENT_RUNES) || c.confidence < 0.0 || c.confidence > 1.0
       || !x.validContent(c.reason, MAX_REASON_RUNES) || c.replacement == c.original { return Some(InvalidChange), 0; }
    var expected := x.applyGlossary(c.original);
    if expected == c.original || c.replacement != expected { return Some(UnsupportedChange), 0; }
    if !x.numbersKept(c.original, c.replacement) { return Some(NumbersChanged), 0; }
    if !x.unitsKept(c.original, c.replacement) { return Some(UnitsChanged), 0; }
    if !x.negationsKept(c.original, c.replacement) { return Some(NegationChanged), 0; }
    var ratio;
    changed, ratio := ChangedSpan(c.original, c.replacement);
    if ratio > MAX_REPLACEMENT_RATIO { return Some(ChangeRatio), 0; }
    return None, changed;
  }

  function Ids(changes: seq<Change>): set<string> {
    if changes == [] then {} else Ids(changes[..|changes| - 1]) + {changes[|changes| - 1].segmentId}
  }

  lemma {:induction false} IdsHold(changes: seq<Change>, id: string)
    ensures id in Ids(changes) <==> exists j :: 0 <= j < |changes| && changes[j].segmentId == id
  {
    if changes != [] {
      IdsHold(changes[..|changes| - 1], id);
    }
  }

  lemma RepeatsIffSeen(changes: seq<Change>, k: nat)
    requires k < |changes|
    ensures Repeats(changes, k) <==> changes[k].segmentId in Ids(changes[..k])
  {
    IdsHold(changes[..k], changes[k].segmentId);
  }

  method CheckChanges(x: Lexicon, byId: map<string, Part>, changes: seq<Change>, ghost parts: seq<Part>)
    returns (r: Result<nat, Problem>)
    requires Indexes(byId, parts)
    ensures match FirstProblem(x, parts, changes, 0)
            case Some(problem) => r == Err(problem)
            case None => r == Ok(ChangedRunes(changes))
  {
    var seen: set<string> := {};
    var changedRunes := 0;
    for k := 0 to |changes|
      invariant seen == Ids(changes[..k]) && changedRunes == ChangedRunes(changes[..k])
      invariant FirstProblem(x, parts, changes, 0) == FirstProblem(x, parts, changes, k)
    {
      RepeatsIffSeen(changes, k);
      QuotesIffIndexed(byId, parts, changes[k]);
      var problem, changed := CheckChange(x, byId, seen, changes[k], parts, changes, k);
      if problem.Some? {
        return Err(problem.value);
      }
      seen := seen + {changes[k].segmentId};
      assert changes[..k + 1][..k] == changes[..k];
      changedRunes := changedRunes + changed;
    }
    assert changes[..|changes|] == changes;
    return Ok(changedRunes);
  }

  /** ValidationResult, which is stored with the correction. */
  datatype Report = Report(
    valid: bool, schemaValid: bool, originalsMatch: bool, glossarySupported: bool, numbersPreserved: bool,
    unitsPreserved: bool, negationsPreserved: bool, timelinePreserved: bool, changeRatio: real)

  const UNDECIDED: Report := Report(false, true, true, true, true, true, true, true, 0.0)

  function Rejected(problem: Problem): Report {
    match problem
    case Schema => UNDECIDED.(schemaValid := false)
    case DuplicateSegment => UNDECIDED.(schemaValid := false)
    case InvalidChange => UNDECIDED.(schemaValid := false)
    case OriginalMismatch => UNDECIDED.(originalsMatch := false)
    case UnsupportedChange => UNDECIDED.(glossarySupported := false)
    case NumbersChanged => UNDECIDED.(numbersPreserved := false)
    case UnitsChanged => UNDECIDED.(unitsPreserved := false)
    case NegationChanged => UNDECIDED.(negationsPreserved := false)
    case _ => UNDECIDED
  }

  function ReportOf(v: Result<real, Problem>, ratio: real): Report {
    match v
    case Ok(_) => UNDECIDED.(valid := true, changeRatio := ratio)
    case Err(AggregateRatio) => UNDECIDED.(changeRatio := ratio)
    case Err(problem) => Rejected(problem)
  }

  function Reported(x: Lexicon, r: Request, p: Proposal): Report { ReportOf(Verdict(x, r, p), AggregateOf(r, p)) }

  method Judge(x: Lexicon, r: Request, p: Proposal) returns (v: Result<real, Problem>, ratio: real)
    ensures v == Verdict(x, r, p) && (v.Ok? || v == Err(AggregateRatio) ==> ratio == AggregateOf(r, p))
  {
    var validRequest := ValidateRequest(x, r);
    if !validRequest || |p.changes| > MAX_CHANGES || !p.rawIsObject || x.blank(p.providerId) || x.blank(p.model)
        || x.blank(p.promptVersion) {
      return Err(Schema), 0.0;
    }
    var byId, total := IndexParts(r.parts);
    var checked := CheckChanges(x, byId, p.changes, r.parts);
    if checked.Err? {
      return Err(checked.error), 0.0;
    }
    ratio := if total > 0 then checked.value as real / total as real else 0.0;
    if ratio > MAX_AGGREGATE_RATIO {
      return Err(AggregateRatio), ratio;
    }
    return Ok(ratio), ratio;
  }

  method ValidateProposal(x: Lexicon, r: Request, p: Proposal) returns (result: Report, v: Result<real, Problem>)
    ensures v == Verdict(x, r, p) && result == Reported(x, r, p)
  {
    var ratio;
    v, ratio := Judge(x, r, p);
    result := ReportOf(v, ratio);
  }

  // ---------------------------------------------------------------------------
  // What a valid proposal is
  // ---------------------------------------------------------------------------

  predicate DistinctChanges(changes: seq<Change>) {
    forall i, j :: 0 <= i < j < |changes| ==> changes[i].segmentId != changes[j].segmentId
  }

  predicate GoodChange(x: Lexicon, parts: seq<Part>, c: Change) {
    && Quotes(parts, c) && WellFormedChange(x, c) && Supported(x, c)
    && x.numbersKept(c.original, c.replacement) && x.unitsKept(c.original, c.replacement)
       && x.negationsKept(c.original, c.replacement)
    && 2 * Size(c.original, c.replacement) <= Max(|c.original|, |c.replacement|)
  }

  /** The whole promise, over exact numbers: each segment is changed at most once, exactly as the
      glossary says and by at most half, and all changes together touch at most 35 percent. */
  predicate Acceptable(x: Lexicon, r: Request, p: Proposal) {
    && ValidEnvelope(x, r, p) && DistinctChanges(p.changes)
    && (forall c :: c in p.changes ==> GoodChange(x, r.parts, c))
    && 20 * ChangedRunes(p.changes) <= 7 * TotalRunes(r.parts)
  }

  lemma QuotientAbove(a: real, b: real, q: real)
    requires b > 0.0
    ensures a / b > q <==> a > q * b
  {
    var d := a / b - q;
    assert d * b == a - q * b;
    assert d > 0.0 ==> d * b > 0.0;
    assert d < 0.0 ==> d * b < 0.0;
  }

  lemma RatioBound(changed: nat, whole: nat)
    requires whole > 0
    ensures changed as real / whole as real > 0.5 <==> 2 * changed > whole
    ensures changed as real / whole as real > 0.35 <==> 20 * changed > 7 * whole
  {
    QuotientAbove(changed as real, whole as real, 0.5);
    QuotientAbove(changed as real, whole as real, 0.35);
  }

  lemma DistinctIffNoRepeats(changes: seq<Change>)
    ensures DistinctChanges(changes) <==> forall k :: 0 <= k < |changes| ==> !Repeats(changes, k)
  {
    if forall k :: 0 <= k < |changes| ==> !Repeats(changes, k) {
      forall i, j | 0 <= i < j < |changes|
        ensures changes[i].segmentId != changes[j].segmentId
      {
        assert !Repeats(changes, j);
      }
    }
  }

  lemma ChangeProblemIff(x: Lexicon, parts: seq<Part>, changes: seq<Change>, k: nat)
    requires k < |changes|
    ensures ChangeProblem(x, parts, changes, k).None? <==> GoodChange(x, parts, changes[k]) && !Repeats(changes, k)
  {
    var c := changes[k];
    var whole := Max(|c.original|, |c.replacement|);
    if whole > 0 {
      RatioBound(Size(c.original, c.replacement), whole);
    }
  }

  lemma ValidRequestHasText(x: Lexicon, r: Request)
    requires ValidRequest(x, r)
    requires forall t: Text :: x.validContent(t, MAX_SEGMENT_RUNES) ==> t != []
    ensures TotalRunes(r.parts) > 0
  {
    assert ValidPart(x, r.parts[|r.parts| - 1]);
  }

  lemma AggregateIff(r: Request, p: Proposal)
    requires TotalRunes(r.parts) > 0
    ensures AggregateOf(r, p) > MAX_AGGREGATE_RATIO <==> 20 * ChangedRunes(p.changes) > 7 * TotalRunes(r.parts)
  {
    RatioBound(ChangedRunes(p.changes), TotalRunes(r.parts));
  }

  lemma ChangesAreGoodIff(x: Lexicon, parts: seq<Part>, changes: seq<Change>)
    ensures FirstProblem(x, parts, changes, 0).None? <==> DistinctChanges(changes) && forall c :: c in changes ==>
            GoodChange(x, parts, c)
  {
    forall k | 0 <= k < |changes|
      ensures ChangeProblem(x, parts, changes, k).None? <==> GoodChange(x, parts, changes[k]) && !Repeats(changes, k)
    {
      ChangeProblemIff(x, parts, changes, k);
    }
    DistinctIffNoRepeats(changes);
  }

  /** ValidateProposal accepts exactly the acceptable proposals. Valid content is never empty. */
  lemma ValidIffAcceptable(x: Lexicon, r: Request, p: Proposal)
    requires forall t: Text :: x.validContent(t, MAX_SEGMENT_RUNES) ==> t != []
    ensures Verdict(x, r, p).Ok? <==> Acceptable(x, r, p)
  {
    if ValidEnvelope(x, r, p) {
      ValidRequestHasText(x, r);
      AggregateIff(r, p);
      ChangesAreGoodIff(x, r.parts, p.changes);
    }
  }

  // ---------------------------------------------------------------------------
  // Automatic approval
  // ---------------------------------------------------------------------------

  /** autoApprovalValidationPassed */
  predicate Passed(v: Report) {
    v.valid && v.schemaValid && v.originalsMatch && v.glossarySupported && v.numbersPreserved
    && v.unitsPreserved && v.negationsPreserved && v.timelinePreserved
  }

  /** Some change fails the check the problem stands for. */
  ghost predicate Blames(x: Lexicon, parts: seq<Part>, changes: seq<Change>, problem: Problem) {
    match problem
    case OriginalMismatch => exists c :: c in changes && !Quotes(parts, c)
    case DuplicateSegment => !DistinctChanges(changes)
    case InvalidChange => exists c :: c in changes && !WellFormedChange(x, c)
    case UnsupportedChange => exists c :: c in changes && !Supported(x, c)
    case NumbersChanged => exists c :: c in changes && !x.numbersKept(c.original, c.replacement)
    case UnitsChanged => exists c :: c in changes && !x.unitsKept(c.original, c.replacement)
    case NegationChanged => exists c :: c in changes && !x.negationsKept(c.original, c.replacement)
    case _ => true
  }

  lemma ChangeIsBlamed(x: Lexicon, parts: seq<Part>, changes: seq<Change>, k: nat)
    requires k < |changes| && ChangeProblem(x, parts, changes, k).Some?
    ensures Blames(x, parts, changes, ChangeProblem(x, parts, changes, k).value)
  {
    assert changes[k] in changes;
  }

  /** The problem that is reported is there. */
  lemma ProblemIsReal(x: Lexicon, r: Request, p: Proposal)
    requires Verdict(x, r, p).Err?
    ensures Blames(x, r.parts, p.changes, Verdict(x, r, p).error)
  {
    if ValidEnvelope(x, r, p) && FirstProblem(x, r.parts, p.changes, 0).Some? {
      var k := ProblemIsSomewhere(x, r.parts, p.changes, 0);
      ChangeIsBlamed(x, r.parts, p.changes, k);
    }
  }

  /** The flags of the report tell the problem, the problem is there, and the proposal passes exactly if it is valid. */
  lemma FlagsTellTheProblem(x: Lexicon, r: Request, p: Proposal)
    ensures var v, report := Verdict(x, r, p), Reported(x, r, p);
            && (Passed(report) <==> v.Ok?) && report.timelinePreserved
            && (!report.originalsMatch <==> v == Err(OriginalMismatch))
            && (!report.glossarySupported <==> v == Err(UnsupportedChange))
            && (!report.numbersPreserved <==> v == Err(NumbersChanged))
            && (!report.unitsPreserved <==> v == Err(UnitsChanged))
            && (!report.negationsPreserved <==> v == Err(NegationChanged))
            && (!report.schemaValid <==> v in {Err(Schema), Err(DuplicateSegment), Err(InvalidChange)})
            && (v.Err? ==> Blames(x, r.parts, p.changes, v.error))
  {
    if Verdict(x, r, p).Err? {
      ProblemIsReal(x, r, p);
    }
  }

  /** The report says valid exactly for a verdict without problem, and holds the part of the text that
      the changes touch once every change has been found good, and zero before. */
  lemma ReportHoldsTheRatio(v: Result<real, Problem>, ratio: real)
    ensures ReportOf(v, ratio).valid <==> v.Ok?
    ensures ReportOf(v, ratio).changeRatio == if v.Ok? || v == Err(AggregateRatio) then ratio else 0.0
  {}

  lemma {:induction false} ProblemIsSomewhere(x: Lexicon, parts: seq<Part>, changes: seq<Change>, from: nat)
    returns (k: nat)
    requires from <= |changes| && FirstProblem(x, parts, changes, from).Some?
    ensures k < |changes| && ChangeProblem(x, parts, changes, k) == FirstProblem(x, parts, changes, from)
    decreases |changes| - from
  {
    if ChangeProblem(x, parts, changes, from).Some? {
      k := from;
    } else {
      k := ProblemIsSomewhere(x, parts, changes, from + 1);
    }
  }

  /** buildAutoApproval: whether the proposal is approved at once, given its report. The loop over
      the changes refuses nothing, as a valid proposal follows the glossary. */
  method AutoApproves(x: Lexicon, glossaryOnly: bool, r: Request, p: Proposal, validation: Report)
    returns (approves: bool)
    requires validation == Reported(x, r, p)
    ensures approves <==> glossaryOnly && r.rules > 0 && p.changes != [] && Verdict(x, r, p).Ok?
  {
    FlagsTellTheProblem(x, r, p);
    if !glossaryOnly || r.rules == 0 || |p.changes| == 0 || !Passed(validation) {
      return false;
    }
    for k := 0 to |p.changes| {
      assert ChangeProblem(x, r.parts, p.changes, k).None?;
      if x.applyGlossary(p.changes[k].original) != p.changes[k].replacement {
        return false;
      }
    }
    return true;
  }

  // ---------------------------------------------------------------------------
  // Rounding
  // ---------------------------------------------------------------------------

  /** The relative error of one rounding to a 64-bit floating-point number. */
  const EPSILON := 1.0 / 9007199254740992.0

  /** The most runes a request can hold. */
  const MAX_RUNES := MAX_SEGMENTS * MAX_SEGMENT_RUNES

  /** A quotient of two counts that is above 7/20, or above 1/2, is so by a margin. */
  lemma QuotientMargin(changed: nat, whole: nat)
    requires 0 < whole <= MAX_RUNES
    ensures var q := changed as real / whole as real;
            && (q > 0.35 ==> q >= 0.35 + 1.0 / 400000000.0)
            && (q > 0.50 ==> q >= 0.50 + 1.0 / 400000000.0)
  {
    RatioBound(changed, whole);
    var n := whole as real;
    if changed as real / n > 0.35 {
      assert (0.35 + 1.0 / 400000000.0) * n <= 0.35 * n + 0.05;
      NotBelow(changed as real, n, 0.35 + 1.0 / 400000000.0);
    }
    if changed as real / n > 0.50 {
      assert (0.50 + 1.0 / 400000000.0) * n <= 0.50 * n + 0.5;
      NotBelow(changed as real, n, 0.50 + 1.0 / 400000000.0);
    }
  }

  lemma NotBelow(a: real, b: real, q: real)
    requires b > 0.0 && a >= q * b
    ensures a / b >= q
  {
    var d := a / b - q;
    assert d * b == a - q * b;
    assert d < 0.0 ==> d * b < 0.0;
  }

  /** The source divides and compares in 64-bit floating point. For any rounding that is monotone
      and accurate to half a unit in the last place this decides as the exact numbers do, for all
      texts a request may hold. */
  lemma RoundingDecidesAlike(round: real -> real, changed: nat, whole: nat, limit: real)
    requires 0 < whole <= MAX_RUNES && limit in {MAX_REPLACEMENT_RATIO, MAX_AGGREGATE_RATIO}
    requires forall a, b :: a <= b ==> round(a) <= round(b)
    requires forall a :: a >= 0.0 ==> a * (1.0 - EPSILON) <= round(a) <= a * (1.0 + EPSILON)
    ensures var q := changed as real / whole as real; round(q) > round(limit) <==> q > limit
  {
    var q := changed as real / whole as real;
    QuotientMargin(changed, whole);
    if q > limit {
      assert q * (1.0 - EPSILON) <= round(q);
      assert round(limit) <= limit * (1.0 + EPSILON);
    } else {
      assert round(q) <= round(limit);
    }
  }

}
