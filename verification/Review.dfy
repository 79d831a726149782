/** Reviewing a correction, internal/review/postgres_repository.go: folding the recorded decisions
    into one verdict per change, and rebuilding the transcript from the accepted changes. */
module Review {
  import opened Common
  import opened Splice
  import opened Proposals
  import opened Correction

  // ---------------------------------------------------------------------------
  // Decisions
  // ---------------------------------------------------------------------------

  /** A recorded decision; AcceptOne and RejectOne carry change_index, which may be null and is not
      negative, as the table checks. */
  datatype Decision = AcceptAll | RejectAll | AcceptOne(index: Option<nat>) | RejectOne(index: Option<nat>) | Other

  predicate InRange(d: Decision, count: nat) {
    (d.AcceptOne? || d.RejectOne?) ==> d.index.Some? && d.index.value < count
  }

  predicate Concerns(d: Decision, i: nat) {
    d.AcceptAll? || d.RejectAll? || ((d.AcceptOne? || d.RejectOne?) && d.index == Some(i))
  }

  predicate Accepts(d: Decision) { d.AcceptAll? || d.AcceptOne? }

  /** The verdict on change i: that of the last decision that concerns it, else the default. */
  ghost predicate LastDecisionWins(decisions: seq<Decision>, byDefault: bool, i: nat, verdict: bool) {
    || (&& verdict == byDefault
        && forall k :: 0 <= k < |decisions| ==> !Concerns(decisions[k], i))
    || exists k :: 0 <= k < |decisions| && Concerns(decisions[k], i) && verdict == Accepts(decisions[k])
                   && forall later :: k < later < |decisions| ==> !Concerns(decisions[later], i)
  }

  function Folded(decisions: seq<Decision>, byDefault: bool, i: nat): bool {
    if decisions == [] then byDefault
    else
      var last := decisions[|decisions| - 1];
      if Concerns(last, i) then Accepts(last) else Folded(decisions[..|decisions| - 1], byDefault, i)
  }

  /** A last decision on the change settles it. */
  lemma ConcernedLast(decisions: seq<Decision>, byDefault: bool, i: nat, verdict: bool)
    requires decisions != [] && Concerns(decisions[|decisions| - 1], i)
    ensures LastDecisionWins(decisions, byDefault, i, verdict) <==> verdict == Accepts(decisions[|decisions| - 1])
  {
    if verdict == Accepts(decisions[|decisions| - 1]) {
      assert LastDecisionWins(decisions, byDefault, i, verdict);
    }
  }

  lemma LongerListKeepsVerdict(front: seq<Decision>, last: Decision, byDefault: bool, i: nat, verdict: bool)
    requires !Concerns(last, i) && LastDecisionWins(front, byDefault, i, verdict)
    ensures LastDecisionWins(front + [last], byDefault, i, verdict)
  {
    var all := front + [last];
    if exists k :: 0 <= k < |front| && Concerns(front[k], i) {
      var k :| 0 <= k < |front| && Concerns(front[k], i) && verdict == Accepts(front[k])
               && forall later :: k < later < |front| ==> !Concerns(front[later], i);
      assert Concerns(all[k], i) && forall later :: k < later < |all| ==> !Concerns(all[later], i);
    }
  }

  lemma ShorterListKeepsVerdict(front: seq<Decision>, last: Decision, byDefault: bool, i: nat, verdict: bool)
    requires !Concerns(last, i) && LastDecisionWins(front + [last], byDefault, i, verdict)
    ensures LastDecisionWins(front, byDefault, i, verdict)
  {
    var all := front + [last];
    if exists k :: 0 <= k < |all| && Concerns(all[k], i) {
      var k :| 0 <= k < |all| && Concerns(all[k], i) && verdict == Accepts(all[k])
               && forall later :: k < later < |all| ==> !Concerns(all[later], i);
      assert Concerns(front[k], i);
      assert forall later :: k < later < |front| ==> all[later] == front[later];
    } else {
      assert forall k :: 0 <= k < |front| ==> all[k] == front[k];
    }
  }

  lemma {:induction false} FoldedIsLastDecision(decisions: seq<Decision>, byDefault: bool, i: nat, verdict: bool)
    ensures LastDecisionWins(decisions, byDefault, i, verdict) <==> verdict == Folded(decisions, byDefault, i)
    decreases |decisions|
  {
    if decisions != [] {
      var front, last := decisions[..|decisions| - 1], decisions[|decisions| - 1];
      if Concerns(last, i) {
        ConcernedLast(decisions, byDefault, i, verdict);
      } else {
        assert decisions == front + [last];
        FoldedIsLastDecision(front, byDefault, i, verdict);
        if LastDecisionWins(front, byDefault, i, verdict) {
          LongerListKeepsVerdict(front, last, byDefault, i, verdict);
        }
        if LastDecisionWins(decisions, byDefault, i, verdict) {
          ShorterListKeepsVerdict(front, last, byDefault, i, verdict);
        }
      }
    }
  }

  method SetAll(accepted: array<bool>, value: bool)
    modifies accepted
    ensures forall i :: 0 <= i < accepted.Length ==> accepted[i] == value
  {
    for i := 0 to accepted.Length
      invariant forall j :: 0 <= j < i ==> accepted[j] == value
    {
      accepted[i] := value;
    }
  }

  /** The fold of Approve, in place. It fails exactly when some decision names no change. */
  method FoldDecisions(count: nat, acceptPending: bool, decisions: seq<Decision>)
    returns (ok: bool, accepted: array<bool>)
    ensures fresh(accepted) && accepted.Length == count
    ensures ok <==> forall d :: d in decisions ==> InRange(d, count)
    ensures ok ==> forall i :: 0 <= i < count ==> LastDecisionWins(decisions, acceptPending, i, accepted[i])
  {
    accepted := new bool[count];
    SetAll(accepted, acceptPending);
    for k := 0 to |decisions|
      invariant forall d :: d in decisions[..k] ==> InRange(d, count)
      invariant forall i :: 0 <= i < count ==> accepted[i] == Folded(decisions[..k], acceptPending, i)
    {
      assert decisions[..k + 1][..k] == decisions[..k] && decisions[k] in decisions;
      match decisions[k] {
        case AcceptAll =>
          SetAll(accepted, true);
        case RejectAll =>
          SetAll(accepted, false);
        case AcceptOne(index) =>
          if index.None? || index.value >= count {
            return false, accepted;
          }
          accepted[index.value] := true;
        case RejectOne(index) =>
          if index.None? || index.value >= count {
            return false, accepted;
          }
          accepted[index.value] := false;
        case Other =>
      }
    }
    assert decisions[..|decisions|] == decisions;
    forall i | 0 <= i < count
      ensures LastDecisionWins(decisions, acceptPending, i, accepted[i])
    {
      FoldedIsLastDecision(decisions, acceptPending, i, accepted[i]);
    }
    return true, accepted;
  }

  // ---------------------------------------------------------------------------
  // buildReviewedContent
  // ---------------------------------------------------------------------------

  /** The corrected revision has the segment of the same time at the ordinal, and the diff agrees
      with both revisions about it. */
  predicate Aligned(parent: Revision, corrected: Revision, changes: seq<Change>, i: nat)
    requires i < |parent.segments|
  {
    && i < |corrected.segments|
    && corrected.segments[i].startMs == parent.segments[i].startMs
       && corrected.segments[i].endMs == parent.segments[i].endMs
    && var k := ChangeFor(changes, parent.segments[i].id);
       k.Some? ==>
           changes[k.value].original == parent.segments[i].text
           && corrected.segments[i].text == changes[k.value].replacement
  }

  predicate AllAligned(parent: Revision, corrected: Revision, changes: seq<Change>) {
    forall i :: 0 <= i < |parent.segments| ==> Aligned(parent, corrected, changes, i)
  }

  /** The change of segment i, if it was accepted. */
  function TakenChange(parent: Revision, changes: seq<Change>, accepted: seq<bool>, i: nat): Option<nat>
    requires i < |parent.segments| && |accepted| == |changes|
  {
    var k := ChangeFor(changes, parent.segments[i].id);
    if k.Some? && accepted[k.value] then k else None
  }

  /** The reviewed segment i: the corrected one if its change was accepted, else the parent's. */
  function Candidate(parent: Revision, corrected: Revision, changes: seq<Change>, accepted: seq<bool>,
                     ids: seq<string>, i: nat): Segment
    requires i < |parent.segments| == |ids| && |accepted| == |changes|
  {
    var take := i < |corrected.segments| && TakenChange(parent, changes, accepted, i).Some?;
    (if take then corrected.segments[i] else parent.segments[i]).(id := ids[i], ordinal := i)
  }

  function Candidates(parent: Revision, corrected: Revision, changes: seq<Change>, accepted: seq<bool>,
                      ids: seq<string>): (r: seq<Segment>)
    requires |parent.segments| == |ids| && |accepted| == |changes|
    ensures |r| == |ids| && forall i :: 0 <= i < |r| ==> r[i] == Candidate(parent, corrected, changes, accepted, ids, i)
  {
    seq(|ids|, i requires 0 <= i < |ids| => Candidate(parent, corrected, changes, accepted, ids, i))
  }

  /** The accepted changes in the order of their segments, for the first n segments. */
  function TakenIndexes(parent: Revision, changes: seq<Change>, accepted: seq<bool>, n: nat): seq<nat>
    requires n <= |parent.segments| && |accepted| == |changes|
  {
    if n == 0 then []
    else
      var taken := TakenChange(parent, changes, accepted, n - 1);
      TakenIndexes(parent, changes, accepted, n - 1) + (if taken.Some? then [taken.value] else [])
  }

  datatype Content = Content(text: Text, segments: seq<Segment>, taken: seq<nat>)

  function Reviewed(parent: Revision, corrected: Revision, changes: seq<Change>, accepted: seq<bool>,
                    ids: seq<string>): Option<Content>
    requires |parent.segments| == |ids| && |accepted| == |changes|
  {
    if !AllAligned(parent, corrected, changes) then None
    else
      var segments := Candidates(parent, corrected, changes, accepted, ids);
      match Spliced(parent.text, 0, Texts(parent.segments), Texts(segments))
      case None => None
      case Some(text) => Some(Content(text, segments, TakenIndexes(parent, changes, accepted, |parent.segments|)))
  }

  /** The part of a round that looks at one segment: check it against the correction and the diff
      and take the corrected segment if its change was accepted. */
  method ReviewSegment(parent: Revision, corrected: Revision, changes: seq<Change>, accepted: seq<bool>,
                       ids: seq<string>, byId: map<string, nat>, i: nat)
    returns (ok: bool, candidate: Segment, index: Option<nat>)
    requires i < |parent.segments| == |ids| && |accepted| == |changes| && LooksUp(byId, changes)
    ensures ok <==> Aligned(parent, corrected, changes, i)
    ensures ok ==>
            candidate == Candidates(parent, corrected, changes, accepted, ids)[i]
            && index == TakenChange(parent, changes, accepted, i)
  {
    var original := parent.segments[i];
    candidate, index := original.(id := ids[i]), None;
    if i >= |corrected.segments| || corrected.segments[i].startMs != original.startMs
        || corrected.segments[i].endMs != original.endMs {
      return false, candidate, None;
    }
    if original.id in byId {
      var change := changes[byId[original.id]];
      if change.original != original.text || corrected.segments[i].text != change.replacement {
        return false, candidate, None;
      }
      if accepted[byId[original.id]] {
        candidate := corrected.segments[i].(id := ids[i]);
        index := Some(byId[original.id]);
      }
    }
    candidate := candidate.(ordinal := i);
    ok := true;
  }

  /** The candidates of the first i segments, all of which are aligned, and their changes. */
  ghost predicate Collected(parent: Revision, corrected: Revision, changes: seq<Change>, accepted: seq<bool>,
                            ids: seq<string>, i: nat, segments: seq<Segment>, taken: seq<nat>)
    requires i <= |parent.segments| == |ids| && |accepted| == |changes|
  {
    && (forall j :: 0 <= j < i ==> Aligned(parent, corrected, changes, j))
    && segments == Candidates(parent, corrected, changes, accepted, ids)[..i]
    && taken == TakenIndexes(parent, changes, accepted, i)
  }

  lemma CollectOne(parent: Revision, corrected: Revision, changes: seq<Change>, accepted: seq<bool>, ids: seq<string>,
                   i: nat, segments: seq<Segment>, taken: seq<nat>)
    requires i < |parent.segments| == |ids| && |accepted| == |changes| && Aligned(parent, corrected, changes, i)
    requires Collected(parent, corrected, changes, accepted, ids, i, segments, taken)
    ensures var index := TakenChange(parent, changes, accepted, i);
            Collected(parent, corrected, changes, accepted, ids, i + 1,
                      segments + [Candidates(parent, corrected, changes, accepted, ids)[i]],
                      taken + (if index.Some? then [index.value] else []))
  {
    PrefixGrows(Candidates(parent, corrected, changes, accepted, ids), i);
  }

  lemma CollectedAll(parent: Revision, corrected: Revision, changes: seq<Change>, accepted: seq<bool>,
                     ids: seq<string>, segments: seq<Segment>, taken: seq<nat>, text: Text)
    requires |parent.segments| == |ids| && |accepted| == |changes|
    requires Collected(parent, corrected, changes, accepted, ids, |ids|, segments, taken)
    requires var wanted := Candidates(parent, corrected, changes, accepted, ids);
             Spliced(parent.text, 0, Texts(parent.segments), Texts(wanted)) == Some(text)
    ensures Reviewed(parent, corrected, changes, accepted, ids) == Some(Content(text, segments, taken))
  {
    var wanted := Candidates(parent, corrected, changes, accepted, ids);
    assert wanted[..|ids|] == wanted;
  }

  method BuildReviewed(parent: Revision, corrected: Revision, changes: seq<Change>, accepted: seq<bool>,
                       ids: seq<string>)
    returns (r: Option<Content>)
    requires |parent.segments| == |ids| && |accepted| == |changes|
    ensures r == Reviewed(parent, corrected, changes, accepted, ids)
  {
    var byId := IndexChanges(changes);
    ghost var pieces := Texts(parent.segments);
    ghost var others := Texts(Candidates(parent, corrected, changes, accepted, ids));
    ghost var whole := Spliced(parent.text, 0, pieces, others);
    var segments: seq<Segment>, taken: seq<nat> := [], [];
    var text: Text, cursor: nat := [], 0;
    SpliceStarts(parent.text, pieces, others);
    for i := 0 to |parent.segments|
      invariant Collected(parent, corrected, changes, accepted, ids, i, segments, taken)
      invariant Underway(whole, parent.text, cursor, pieces, others, i, text)
    {
      var ok, candidate, index := ReviewSegment(parent, corrected, changes, accepted, ids, byId, i);
      if !ok {
        return None;
      }
      var found, written, next :=
        WriteNext(parent.text, cursor, parent.segments[i].text, candidate.text, text, whole, pieces, others, i);
      if !found {
        return None;
      }
      CollectOne(parent, corrected, changes, accepted, ids, i, segments, taken);
      text, cursor, segments := written, next, segments + [candidate];
      taken := taken + (if index.Some? then [index.value] else []);
    }
    SpliceEnds(whole, parent.text, cursor, pieces, others, text);
    CollectedAll(parent, corrected, changes, accepted, ids, segments, taken, text + parent.text[cursor..]);
    return Some(Content(text + parent.text[cursor..], segments, taken));
  }

  // ---------------------------------------------------------------------------
  // Review and correction agree
  // ---------------------------------------------------------------------------

  /** The accepted changes. */
  function Chosen(changes: seq<Change>, accepted: seq<bool>): seq<Change>
    requires |accepted| == |changes|
  {
    if changes == [] then []
    else
      var n := |changes| - 1;
      Chosen(changes[..n], accepted[..n]) + (if accepted[n] then [changes[n]] else [])
  }

  lemma {:induction false} ChangeAmongChosen(changes: seq<Change>, accepted: seq<bool>, id: string)
    requires |accepted| == |changes| && DistinctChanges(changes)
    ensures var k, c := ChangeFor(changes, id), ChangeFor(Chosen(changes, accepted), id);
            if k.Some? && accepted[k.value] then c.Some? && Chosen(changes, accepted)[c.value] == changes[k.value]
                else c.None?
    decreases |changes|
  {
    if changes != [] {
      var n := |changes| - 1;
      var front, rest := Chosen(changes[..n], accepted[..n]), Chosen(changes, accepted);
      ChangeAmongChosen(changes[..n], accepted[..n], id);
      if accepted[n] {
        assert rest[..|rest| - 1] == front;
      } else {
        assert rest == front;
      }
    }
  }

  predicate DistinctSegments(segments: seq<Segment>) {
    forall i, j :: 0 <= i < j < |segments| ==> segments[i].id != segments[j].id
  }

  /** The parts of the request the processor builds from its source revision. */
  function PartsOf(segments: seq<Segment>): (r: seq<Part>)
    ensures |r| == |segments| && forall i :: 0 <= i < |r| ==>
            r[i] == Part(segments[i].id, segments[i].startMs, segments[i].endMs, segments[i].text)
  {
    seq(|segments|, i requires 0 <= i < |segments| =>
        Part(segments[i].id, segments[i].startMs, segments[i].endMs, segments[i].text))
  }

  /** What validation guarantees about the changes, in terms of the source revision. */
  predicate FitsSource(source: Revision, changes: seq<Change>) {
    && DistinctSegments(source.segments) && DistinctChanges(changes)
    && forall c :: c in changes ==> Quotes(PartsOf(source.segments), c)
  }

  lemma ValidatedFitsSource(x: Lexicon, r: Request, p: Proposal, source: Revision)
    requires r.parts == PartsOf(source.segments) && Acceptable(x, r, p)
    ensures FitsSource(source, p.changes)
  {
    forall i, j | 0 <= i < j < |source.segments|
      ensures source.segments[i].id != source.segments[j].id
    {
      assert r.parts[i].id != r.parts[j].id;
    }
  }

  /** The segment a change quotes. */
  lemma QuotedSegment(source: Revision, changes: seq<Change>, k: nat) returns (i: nat)
    requires FitsSource(source, changes) && k < |changes|
    ensures i < |source.segments| && source.segments[i].id == changes[k].segmentId
            && source.segments[i].text == changes[k].original
    ensures ChangeFor(changes, source.segments[i].id) == Some(k)
  {
    assert Quotes(PartsOf(source.segments), changes[k]);
    var p :| p in PartsOf(source.segments) && p.id == changes[k].segmentId && p.text == changes[k].original;
    i :| 0 <= i < |source.segments| && PartsOf(source.segments)[i] == p;
    ChangeForIsLast(changes, changes[k].segmentId);
  }

  lemma CorrectedIsAligned(source: Revision, changes: seq<Change>, oldIds: seq<string>, i: nat)
    requires |oldIds| == |source.segments| && Corrected(source, changes, oldIds).Some? && FitsSource(source, changes)
             && i < |source.segments|
    ensures Aligned(source, Corrected(source, changes, oldIds).value, changes, i)
  {
    var k := ChangeFor(changes, source.segments[i].id);
    if k.Some? {
      var j := QuotedSegment(source, changes, k.value);
      assert i == j;
    }
  }

  lemma CandidateIsEdited(source: Revision, changes: seq<Change>, oldIds: seq<string>, accepted: seq<bool>,
                          ids: seq<string>, i: nat)
    requires |oldIds| == |ids| == |source.segments| && |accepted| == |changes| && DistinctChanges(changes) && i < |ids|
    requires Corrected(source, changes, oldIds).Some?
    ensures Candidate(source, Corrected(source, changes, oldIds).value, changes, accepted, ids, i)
            == Edited(source.segments[i], i, ids[i], Chosen(changes, accepted))
  {
    ChangeAmongChosen(changes, accepted, source.segments[i].id);
  }

  /** For every correction of a validated proposal and every choice of accepted changes, review
      succeeds and produces exactly what correcting with the accepted changes alone would. */
  lemma ReviewIsCorrectionByAccepted(source: Revision, changes: seq<Change>, oldIds: seq<string>, accepted: seq<bool>,
                                     ids: seq<string>)
    requires |oldIds| == |ids| == |source.segments| && |accepted| == |changes| && FitsSource(source, changes)
    requires Corrected(source, changes, oldIds).Some?
    ensures var r := Reviewed(source, Corrected(source, changes, oldIds).value, changes, accepted, ids);
            var c := Corrected(source, Chosen(changes, accepted), ids);
            r.Some? && c.Some? && r.value.text == c.value.text && r.value.segments == c.value.segments
  {
    var corrected := Corrected(source, changes, oldIds).value;
    forall i | 0 <= i < |ids|
      ensures Aligned(source, corrected, changes, i)
      ensures Candidate(source, corrected, changes, accepted, ids, i)
              == Edited(source.segments[i], i, ids[i], Chosen(changes, accepted))
    {
      CorrectedIsAligned(source, changes, oldIds, i);
      CandidateIsEdited(source, changes, oldIds, accepted, ids, i);
    }
    var segments := Candidates(source, corrected, changes, accepted, ids);
    assert segments == EditedAll(source.segments, Chosen(changes, accepted), ids);
    SplicedIsRewrite(source.text, 0, Texts(source.segments), Texts(corrected.segments));
    SplicedIsRewrite(source.text, 0, Texts(source.segments), Texts(segments));
  }

  /** All accepted gives the corrected text; none accepted gives the parent's. */
  lemma ReviewExtremes(source: Revision, changes: seq<Change>, oldIds: seq<string>, accepted: seq<bool>,
                       ids: seq<string>)
    requires |oldIds| == |ids| == |source.segments| && |accepted| == |changes| && FitsSource(source, changes)
    requires Corrected(source, changes, oldIds).Some?
    ensures var corrected := Corrected(source, changes, oldIds).value;
            var r := Reviewed(source, corrected, changes, accepted, ids);
            && r.Some?
            && ((forall k :: 0 <= k < |changes| ==> accepted[k]) ==> r.value.text == corrected.text)
            && ((forall k :: 0 <= k < |changes| ==> !accepted[k]) ==> r.value.text == source.text)
  {
    ReviewIsCorrectionByAccepted(source, changes, oldIds, accepted, ids);
    if forall k :: 0 <= k < |changes| ==> accepted[k] {
      AllChosen(changes, accepted);
      assert Texts(EditedAll(source.segments, changes, ids)) == Texts(EditedAll(source.segments, changes, oldIds));
    }
    if forall k :: 0 <= k < |changes| ==> !accepted[k] {
      NoneChosen(changes, accepted);
      NoChangesKeepText(source, ids);
    }
  }

  lemma {:induction false} AllChosen(changes: seq<Change>, accepted: seq<bool>)
    requires |accepted| == |changes| && forall k :: 0 <= k < |changes| ==> accepted[k]
    ensures Chosen(changes, accepted) == changes
  {
    if changes != [] {
      AllChosen(changes[..|changes| - 1], accepted[..|changes| - 1]);
    }
  }

  lemma {:induction false} NoneChosen(changes: seq<Change>, accepted: seq<bool>)
    requires |accepted| == |changes| && forall k :: 0 <= k < |changes| ==> !accepted[k]
    ensures Chosen(changes, accepted) == []
  {
    if changes != [] {
      NoneChosen(changes[..|changes| - 1], accepted[..|changes| - 1]);
    }
  }

  lemma {:induction false} TakenIndexesHold(parent: Revision, changes: seq<Change>, accepted: seq<bool>, n: nat, k: nat)
    requires n <= |parent.segments| && |accepted| == |changes|
    ensures k in TakenIndexes(parent, changes, accepted, n) <==>
            exists i :: 0 <= i < n && TakenChange(parent, changes, accepted, i) == Some(k)
  {
    if n > 0 {
      TakenIndexesHold(parent, changes, accepted, n - 1, k);
    }
  }

  /** The recorded indexes are those of the accepted changes, all of them and no other. */
  lemma RecordedIndexesAreAccepted(source: Revision, changes: seq<Change>, accepted: seq<bool>, k: nat)
    requires |accepted| == |changes| && FitsSource(source, changes)
    ensures k in TakenIndexes(source, changes, accepted, |source.segments|) <==> k < |changes| && accepted[k]
  {
    TakenIndexesHold(source, changes, accepted, |source.segments|, k);
    if k < |changes| && accepted[k] {
      var i := QuotedSegment(source, changes, k);
      assert TakenChange(source, changes, accepted, i) == Some(k);
    }
  }

  /** The whole path: a proposal that passed validation was applied to its source; the decisions
      recorded about it give each change the verdict of the last decision on it; then review
      succeeds and writes the source corrected by exactly the changes so accepted. */
  lemma DecisionsDecideTheText(x: Lexicon, r: Request, p: Proposal, source: Revision, oldIds: seq<string>,
                               decisions: seq<Decision>, acceptPending: bool, accepted: seq<bool>, ids: seq<string>)
    requires r.parts == PartsOf(source.segments) && Acceptable(x, r, p)
    requires |oldIds| == |ids| == |source.segments| && Corrected(source, p.changes, oldIds).Some?
    requires |accepted| == |p.changes| && forall i :: 0 <= i < |accepted| ==>
             LastDecisionWins(decisions, acceptPending, i, accepted[i])
    ensures var content := Reviewed(source, Corrected(source, p.changes, oldIds).value, p.changes, accepted, ids);
            && content.Some?
            && Corrected(source, Chosen(p.changes, accepted), ids)
               == Some(Revision(content.value.text, content.value.segments))
            && forall k :: k in content.value.taken <==> 0 <= k < |p.changes| && Folded(decisions, acceptPending, k)
  {
    ValidatedFitsSource(x, r, p, source);
    ReviewIsCorrectionByAccepted(source, p.changes, oldIds, accepted, ids);
    var taken := TakenIndexes(source, p.changes, accepted, |source.segments|);
    forall k: nat
      ensures k in taken <==> k < |p.changes| && Folded(decisions, acceptPending, k)
    {
      RecordedIndexesAreAccepted(source, p.changes, accepted, k);
      if k < |p.changes| {
        assert LastDecisionWins(decisions, acceptPending, k, accepted[k]);
        FoldedIsLastDecision(decisions, acceptPending, k, accepted[k]);
      }
    }
  }
}
