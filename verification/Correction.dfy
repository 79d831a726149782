/** Transcript rewriting: applying the changes of a proposal to a revision
    (internal/correction/processor.go), and what that does to the text. */
module Correction {
  import opened Common
  import opened Splice
  import opened Proposals

  datatype Segment = Segment(
    id: string, ordinal: int, startMs: int, endMs: int,
    speaker: Option<string>, text: Text, confidence: Option<real>, words: string)

  /** The parts of a revision that rewriting touches. */
  datatype Revision = Revision(text: Text, segments: seq<Segment>)

  const NO_WORDS := "[]"

  function Texts(segments: seq<Segment>): (t: seq<Text>)
    ensures |t| == |segments| && forall i :: 0 <= i < |t| ==> t[i] == segments[i].text
  {
    seq(|segments|, i requires 0 <= i < |segments| => segments[i].text)
  }

  // ---------------------------------------------------------------------------
  // Writing a text around its segments
  // ---------------------------------------------------------------------------

  /** The cursor loop both files share: find each piece after the cursor, copy the text before
      it, write the other piece. */
  function Spliced(text: Text, from: nat, pieces: seq<Text>, others: seq<Text>): Option<Text>
    requires from <= |text| && |others| == |pieces|
    decreases |pieces|
  {
    if pieces == [] then Some(text[from..])
    else match Find(text, from, pieces[0])
      case None => None
      case Some(p) =>
        match Spliced(text, p + |pieces[0]|, pieces[1..], others[1..])
        case None => None
        case Some(rest) => Some(text[from..p] + others[0] + rest)
  }

  lemma RewriteStep(text: Text, from: nat, pieces: seq<Text>, p: nat, rest: seq<nat>, others: seq<Text>)
    requires pieces != [] && |others| == |pieces| && Placed(text, from, pieces, [p] + rest)
    ensures Placed(text, p + |pieces[0]|, pieces[1..], rest)
    ensures Rewrite(text, from, pieces, [p] + rest, others) == text[from..p] + others[0]
            + Rewrite(text, p + |pieces[0]|, pieces[1..], rest, others[1..])
  {
    assert ([p] + rest)[1..] == rest;
    assert Gaps(text, from, pieces, [p] + rest)[1..] == Gaps(text, p + |pieces[0]|, pieces[1..], rest);
  }

  /** Splicing succeeds exactly when the greedy placement does, and rewrites the text at it. */
  ghost predicate SplicesAsPlaced(text: Text, from: nat, pieces: seq<Text>, others: seq<Text>)
    requires from <= |text| && |others| == |pieces|
  {
    match Locate(text, from, pieces)
    case None => Spliced(text, from, pieces, others) == None
    case Some(at) =>
      && Placed(text, from, pieces, at)
      && Spliced(text, from, pieces, others) == Some(Rewrite(text, from, pieces, at, others))
  }

  lemma SplicesOneMore(text: Text, from: nat, pieces: seq<Text>, others: seq<Text>, p: nat)
    requires from <= |text| && |others| == |pieces| && pieces != [] && Find(text, from, pieces[0]) == Some(p)
    requires SplicesAsPlaced(text, p + |pieces[0]|, pieces[1..], others[1..])
    ensures SplicesAsPlaced(text, from, pieces, others)
  {
    var rest := Locate(text, p + |pieces[0]|, pieces[1..]);
    if rest.Some? {
      LocateIsPlacement(text, from, pieces);
      RewriteStep(text, from, pieces, p, rest.value, others);
    }
  }

  lemma {:induction false} SplicedIsRewrite(text: Text, from: nat, pieces: seq<Text>, others: seq<Text>)
    requires from <= |text| && |others| == |pieces|
    ensures SplicesAsPlaced(text, from, pieces, others)
    decreases |pieces|
  {
    if pieces != [] && Find(text, from, pieces[0]).Some? {
      var p := Find(text, from, pieces[0]).value;
      SplicedIsRewrite(text, p + |pieces[0]|, pieces[1..], others[1..]);
      SplicesOneMore(text, from, pieces, others, p);
    }
  }

  /** The change the source's map holds for a segment: the last one that names it. */
  function ChangeFor(changes: seq<Change>, id: string): (r: Option<nat>)
    ensures r.Some? ==> r.value < |changes| && changes[r.value].segmentId == id
  {
    if changes == [] then None
    else if changes[|changes| - 1].segmentId == id then Some(|changes| - 1)
    else ChangeFor(changes[..|changes| - 1], id)
  }

  lemma {:induction false} ChangeForIsLast(changes: seq<Change>, id: string)
    ensures var r := ChangeFor(changes, id);
            && (r.None? <==> forall i :: 0 <= i < |changes| ==> changes[i].segmentId != id)
            && (r.Some? ==> forall i :: r.value < i < |changes| ==> changes[i].segmentId != id)
  {
    if changes != [] && changes[|changes| - 1].segmentId != id {
      ChangeForIsLast(changes[..|changes| - 1], id);
    }
  }

  /** A segment of the corrected revision. */
  function Edited(s: Segment, ordinal: nat, id: string, changes: seq<Change>): Segment {
    var renamed := s.(id := id, ordinal := ordinal);
    match ChangeFor(changes, s.id)
    case None => renamed
    case Some(k) => renamed.(text := changes[k].replacement, words := NO_WORDS)
  }

  function EditedAll(segments: seq<Segment>, changes: seq<Change>, ids: seq<string>): (r: seq<Segment>)
    requires |ids| == |segments|
    ensures |r| == |segments| && forall i :: 0 <= i < |r| ==> r[i] == Edited(segments[i], i, ids[i], changes)
  {
    seq(|segments|, i requires 0 <= i < |segments| => Edited(segments[i], i, ids[i], changes))
  }

  /** applyProposal with the given new segment ids. */
  function Corrected(source: Revision, changes: seq<Change>, ids: seq<string>): Option<Revision>
    requires |ids| == |source.segments|
  {
    var edited := EditedAll(source.segments, changes, ids);
    match Spliced(source.text, 0, Texts(source.segments), Texts(edited))
    case None => None
    case Some(text) => Some(Revision(text, edited))
  }

  function Prepend(front: Text, rest: Option<Text>): Option<Text> {
    match rest
    case None => None
    case Some(t) => Some(front + t)
  }

  /** The loop has written `out`, stands at the cursor and has pieces i.. to go. */
  ghost predicate Underway(whole: Option<Text>, text: Text, cursor: nat, pieces: seq<Text>, others: seq<Text>, i: nat,
                           out: Text) {
    && cursor <= |text| && i <= |pieces| == |others|
    && whole == Prepend(out, Spliced(text, cursor, pieces[i..], others[i..]))
  }

  lemma SpliceStarts(text: Text, pieces: seq<Text>, others: seq<Text>)
    requires |others| == |pieces|
    ensures Underway(Spliced(text, 0, pieces, others), text, 0, pieces, others, 0, [])
  {
    assert pieces[0..] == pieces && others[0..] == others;
    if Spliced(text, 0, pieces, others).Some? {
      assert [] + Spliced(text, 0, pieces, others).value == Spliced(text, 0, pieces, others).value;
    }
  }

  lemma SpliceGoesOn(whole: Option<Text>, text: Text, cursor: nat, pieces: seq<Text>, others: seq<Text>, i: nat,
                     out: Text)
    requires Underway(whole, text, cursor, pieces, others, i, out) && i < |pieces|
    ensures match Find(text, cursor, pieces[i])
            case None => whole == None
            case Some(p) => Underway(whole, text, p + |pieces[i]|, pieces, others, i + 1,
                                     out + text[cursor..p] + others[i])
  {
    assert pieces[i..][1..] == pieces[i + 1..] && others[i..][1..] == others[i + 1..];
    var next := Find(text, cursor, pieces[i]);
    if next.Some? {
      var rest := Spliced(text, next.value + |pieces[i]|, pieces[i + 1..], others[i + 1..]);
      if rest.Some? {
        assert out + (text[cursor..next.value] + others[i] + rest.value) == out + text[cursor..next.value] + others[i]
               + rest.value;
      }
    }
  }

  lemma SpliceEnds(whole: Option<Text>, text: Text, cursor: nat, pieces: seq<Text>, others: seq<Text>, out: Text)
    requires Underway(whole, text, cursor, pieces, others, |pieces|, out)
    ensures whole == Some(out + text[cursor..])
  {}

  /** The table holds the last change of every segment that has one. */
  ghost predicate LooksUp(byId: map<string, nat>, changes: seq<Change>) {
    && (forall id :: id in byId <==> ChangeFor(changes, id).Some?)
    && (forall id :: id in byId ==> ChangeFor(changes, id) == Some(byId[id]))
  }

  method IndexChanges(changes: seq<Change>) returns (byId: map<string, nat>)
    ensures LooksUp(byId, changes)
  {
    byId := map[];
    for k := 0 to |changes|
      invariant LooksUp(byId, changes[..k])
    {
      byId := byId[changes[k].segmentId := k];
      assert changes[..k + 1][..k] == changes[..k];
    }
    assert changes[..|changes|] == changes;
  }

  /** One round of the rewriting loop: find the piece, write what precedes it and its new text. */
  method WriteNext(text: Text, cursor: nat, piece: Text, other: Text, out: Text,
                   ghost whole: Option<Text>, ghost pieces: seq<Text>, ghost others: seq<Text>, ghost i: nat)
    returns (ok: bool, written: Text, next: nat)
    requires Underway(whole, text, cursor, pieces, others, i, out)
    requires i < |pieces| && piece == pieces[i] && other == others[i]
    ensures if ok then Underway(whole, text, next, pieces, others, i + 1, written) else whole == None
  {
    SpliceGoesOn(whole, text, cursor, pieces, others, i, out);
    var position := Index(text, cursor, piece);
    if position.None? {
      return false, out, cursor;
    }
    return true, out + text[cursor..position.value] + other, position.value + |piece|;
  }

  /** The segment with its replacement, if a change names it. */
  method EditSegment(source: Revision, changes: seq<Change>, ids: seq<string>, byId: map<string, nat>, i: nat)
    returns (segment: Segment)
    requires i < |source.segments| == |ids| && LooksUp(byId, changes)
    ensures segment == EditedAll(source.segments, changes, ids)[i]
  {
    var original := source.segments[i];
    segment := original.(id := ids[i], ordinal := i);
    if original.id in byId {
      segment := segment.(text := changes[byId[original.id]].replacement, words := NO_WORDS);
    }
  }

  method ApplyProposal(source: Revision, changes: seq<Change>, ids: seq<string>) returns (r: Option<Revision>)
    requires |ids| == |source.segments|
    ensures r == Corrected(source, changes, ids)
  {
    var byId := IndexChanges(changes);
    ghost var edited := EditedAll(source.segments, changes, ids);
    ghost var pieces, others := Texts(source.segments), Texts(edited);
    ghost var whole := Spliced(source.text, 0, pieces, others);
    var segments: seq<Segment> := [];
    var text: Text, cursor: nat := [], 0;
    SpliceStarts(source.text, pieces, others);
    for i := 0 to |source.segments|
      invariant segments == edited[..i]
      invariant Underway(whole, source.text, cursor, pieces, others, i, text)
    {
      var segment := EditSegment(source, changes, ids, byId, i);
      var ok, written, next :=
        WriteNext(source.text, cursor, source.segments[i].text, segment.text, text, whole, pieces, others, i);
      if !ok {
        return None;
      }
      PrefixGrows(edited, i);
      text, cursor, segments := written, next, segments + [segment];
    }
    SpliceEnds(whole, source.text, cursor, pieces, others, text);
    assert segments == edited;
    return Some(Revision(text + source.text[cursor..], segments));
  }

  // ---------------------------------------------------------------------------
  // What correction does to a text
  // ---------------------------------------------------------------------------

  /** Correction succeeds exactly when the segments occur in the text in order. */
  lemma CorrectsIffPlaced(source: Revision, changes: seq<Change>, ids: seq<string>)
    requires |ids| == |source.segments|
    ensures Corrected(source, changes, ids).Some? <==> exists at :: IsPlacement(source.text, Texts(source.segments), at)
  {
    SplicedIsRewrite(source.text, 0, Texts(source.segments), Texts(EditedAll(source.segments, changes, ids)));
    GreedyIsComplete(source.text, Texts(source.segments));
  }

  /** The text between the segments is kept: the source is the gaps around the old texts, the
      result the same gaps around the new ones. */
  lemma CorrectionKeepsGaps(source: Revision, changes: seq<Change>, ids: seq<string>)
    requires |ids| == |source.segments| && Corrected(source, changes, ids).Some?
    ensures exists gaps: seq<Text> ::
              && |gaps| == |source.segments| + 1
              && source.text == Interleave(gaps, Texts(source.segments))
              && Corrected(source, changes, ids).value.text
                 == Interleave(gaps, Texts(EditedAll(source.segments, changes, ids)))
  {
    var pieces := Texts(source.segments);
    SplicedIsRewrite(source.text, 0, pieces, Texts(EditedAll(source.segments, changes, ids)));
    var at := Locate(source.text, 0, pieces).value;
    RewriteWithSame(source.text, 0, pieces, at);
    assert source.text[0..] == source.text;
    var gaps := Gaps(source.text, 0, pieces, at);
    assert source.text == Interleave(gaps, pieces);
  }

  /** Of a segment a correction changes the text alone, to the replacement of the last change that names
      it, and drops the timings of the words that are gone; a segment that no change names keeps both.
      Times, speaker and confidence stay. */
  lemma CorrectionKeepsTheRest(source: Revision, changes: seq<Change>, ids: seq<string>, i: nat)
    requires i < |source.segments| == |ids| && Corrected(source, changes, ids).Some?
    ensures |Corrected(source, changes, ids).value.segments| == |source.segments|
    ensures var was, now := source.segments[i], Corrected(source, changes, ids).value.segments[i];
            && now.id == ids[i] && now.ordinal == i && now.startMs == was.startMs && now.endMs == was.endMs
            && now.speaker == was.speaker && now.confidence == was.confidence
            && ((forall k :: 0 <= k < |changes| ==> changes[k].segmentId != was.id) ==>
                now.text == was.text && now.words == was.words)
            && (forall k :: 0 <= k < |changes| && changes[k].segmentId == was.id
                            && (forall l :: k < l < |changes| ==> changes[l].segmentId != was.id) ==>
                now.text == changes[k].replacement && now.words == "[]")
  {
    ChangeForIsLast(changes, source.segments[i].id);
  }

  /** No changes, no change. */
  lemma NoChangesKeepText(source: Revision, ids: seq<string>)
    requires |ids| == |source.segments| && Corrected(source, [], ids).Some?
    ensures Corrected(source, [], ids).value.text == source.text
    ensures forall i :: 0 <= i < |ids| ==>
            Corrected(source, [], ids).value.segments[i] == source.segments[i].(id := ids[i], ordinal := i)
  {
    var pieces := Texts(source.segments);
    assert Texts(EditedAll(source.segments, [], ids)) == pieces;
    SplicedIsRewrite(source.text, 0, pieces, pieces);
    RewriteWithSame(source.text, 0, pieces, Locate(source.text, 0, pieces).value);
    assert source.text[0..] == source.text;
  }

  /** A corrected revision can be corrected again, whatever the next proposal says. */
  lemma CorrectionCanBeRepeated(source: Revision, changes: seq<Change>, ids: seq<string>, more: seq<Change>,
                                moreIds: seq<string>)
    requires |ids| == |moreIds| == |source.segments| && Corrected(source, changes, ids).Some?
    ensures Corrected(Corrected(source, changes, ids).value, more, moreIds).Some?
  {
    var pieces, others := Texts(source.segments), Texts(EditedAll(source.segments, changes, ids));
    SplicedIsRewrite(source.text, 0, pieces, others);
    RewriteCanBeLocated(source.text, pieces, Locate(source.text, 0, pieces).value, others);
    var next := Corrected(source, changes, ids).value;
    SplicedIsRewrite(next.text, 0, others, Texts(EditedAll(next.segments, more, moreIds)));
  }
}
