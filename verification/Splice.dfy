/** Locating the segments of a transcript in its text, left to right, and writing the text again
    around replacements. Both internal/correction/processor.go and
    internal/review/postgres_repository.go do this with a cursor and strings.Index. */
module Splice {
  import opened Common

  type Text = seq<char>

  predicate MatchAt(text: Text, at: nat, piece: Text) {
    at + |piece| <= |text| && text[at..at + |piece|] == piece
  }

  /** The leftmost match at or after `from`. */
  function Find(text: Text, from: nat, piece: Text): (r: Option<nat>)
    requires from <= |text|
    ensures r.Some? ==> from <= r.value && MatchAt(text, r.value, piece) && forall p :: from <= p < r.value ==>
            !MatchAt(text, p, piece)
    ensures r.None? ==> forall p :: from <= p ==> !MatchAt(text, p, piece)
    decreases |text| - from
  {
    if MatchAt(text, from, piece) then Some(from)
    else if from == |text| then None
    else Find(text, from + 1, piece)
  }

  /** strings.Index on the rest of the text. */
  method Index(text: Text, from: nat, piece: Text) returns (r: Option<nat>)
    requires from <= |text|
    ensures r == Find(text, from, piece)
  {
    var p := from;
    while p + |piece| <= |text|
      invariant from <= p <= |text| + 1
      invariant forall q :: from <= q < p ==> !MatchAt(text, q, piece)
    {
      if text[p..p + |piece|] == piece {
        assert MatchAt(text, p, piece);
        return Some(p);
      }
      p := p + 1;
    }
    return None;
  }

  // ---------------------------------------------------------------------------
  // Placements
  // ---------------------------------------------------------------------------

  /** The pieces occur in the text in order and without overlap, at the given positions. */
  predicate Placed(text: Text, from: nat, pieces: seq<Text>, at: seq<nat>)
    decreases |pieces|
  {
    && |at| == |pieces|
    && (if pieces == [] then from <= |text|
        else
          from <= at[0] && MatchAt(text, at[0], pieces[0])
          && Placed(text, at[0] + |pieces[0]|, pieces[1..], at[1..]))
  }

  predicate IsPlacement(text: Text, pieces: seq<Text>, at: seq<nat>) { Placed(text, 0, pieces, at) }

  /** The greedy placement: every piece at its leftmost match after the one before. */
  function Locate(text: Text, from: nat, pieces: seq<Text>): (r: Option<seq<nat>>)
    requires from <= |text|
    ensures r.Some? ==> |r.value| == |pieces|
    decreases |pieces|
  {
    if pieces == [] then Some([])
    else match Find(text, from, pieces[0])
      case None => None
      case Some(p) =>
        match Locate(text, p + |pieces[0]|, pieces[1..])
        case None => None
        case Some(rest) => Some([p] + rest)
  }

  lemma {:induction false} LocateIsPlacement(text: Text, from: nat, pieces: seq<Text>)
    requires from <= |text| && Locate(text, from, pieces).Some?
    ensures Placed(text, from, pieces, Locate(text, from, pieces).value)
    decreases |pieces|
  {
    if pieces != [] {
      var p := Find(text, from, pieces[0]).value;
      LocateIsPlacement(text, p + |pieces[0]|, pieces[1..]);
    }
  }

  /** The greedy search never misses a placement, and places every piece as far left as any does. */
  lemma {:induction false} GreedyIsLeftmost(text: Text, from: nat, pieces: seq<Text>, at: seq<nat>, start: nat)
    requires start <= from && from <= |text| && Placed(text, from, pieces, at)
    ensures Locate(text, start, pieces).Some?
    ensures forall i :: 0 <= i < |pieces| ==> Locate(text, start, pieces).value[i] <= at[i]
    decreases |pieces|
  {
    if pieces != [] {
      assert MatchAt(text, at[0], pieces[0]);
      var p := Find(text, start, pieces[0]).value;
      GreedyIsLeftmost(text, at[0] + |pieces[0]|, pieces[1..], at[1..], p + |pieces[0]|);
      var all, rest := Locate(text, start, pieces).value, Locate(text, p + |pieces[0]|, pieces[1..]).value;
      forall i | 0 <= i < |pieces|
        ensures all[i] <= at[i]
      {
        if i > 0 {
          assert all[i] == rest[i - 1] && rest[i - 1] <= at[1..][i - 1];
        }
      }
    }
  }

  /** Greedy search succeeds exactly when some ordered, non-overlapping placement exists. */
  lemma GreedyIsComplete(text: Text, pieces: seq<Text>)
    ensures Locate(text, 0, pieces).Some? <==> exists at :: IsPlacement(text, pieces, at)
  {
    if Locate(text, 0, pieces).Some? {
      LocateIsPlacement(text, 0, pieces);
      assert IsPlacement(text, pieces, Locate(text, 0, pieces).value);
    }
    forall at | IsPlacement(text, pieces, at)
      ensures Locate(text, 0, pieces).Some?
    {
      GreedyIsLeftmost(text, 0, pieces, at, 0);
    }
  }

  // ---------------------------------------------------------------------------
  // Rewriting
  // ---------------------------------------------------------------------------

  /** The text around the placed pieces: before the first, between each two, after the last. */
  function Gaps(text: Text, from: nat, pieces: seq<Text>, at: seq<nat>): (gaps: seq<Text>)
    requires Placed(text, from, pieces, at)
    ensures |gaps| == |pieces| + 1
    decreases |pieces|
  {
    if pieces == [] then [text[from..]]
    else [text[from..at[0]]] + Gaps(text, at[0] + |pieces[0]|, pieces[1..], at[1..])
  }

  function Interleave(gaps: seq<Text>, pieces: seq<Text>): Text
    requires |gaps| == |pieces| + 1
    decreases |pieces|
  {
    if pieces == [] then gaps[0] else gaps[0] + pieces[0] + Interleave(gaps[1..], pieces[1..])
  }

  /** The text written anew with other pieces in the places of the old ones. */
  function Rewrite(text: Text, from: nat, pieces: seq<Text>, at: seq<nat>, others: seq<Text>): Text
    requires Placed(text, from, pieces, at) && |others| == |pieces|
  {
    Interleave(Gaps(text, from, pieces, at), others)
  }

  /** Cutting a text at a placement and joining it again gives the text. */
  lemma {:induction false} RewriteWithSame(text: Text, from: nat, pieces: seq<Text>, at: seq<nat>)
    requires Placed(text, from, pieces, at) && from <= |text|
    ensures Rewrite(text, from, pieces, at, pieces) == text[from..]
    decreases |pieces|
  {
    if pieces != [] {
      var next := at[0] + |pieces[0]|;
      RewriteWithSame(text, next, pieces[1..], at[1..]);
      assert Gaps(text, from, pieces, at)[1..] == Gaps(text, next, pieces[1..], at[1..]);
      assert text[from..at[0]] + pieces[0] + text[next..] == text[from..];
    }
  }

  /** Where the pieces of an interleaving start. */
  function Starts(gaps: seq<Text>, pieces: seq<Text>, from: nat): (at: seq<nat>)
    requires |gaps| == |pieces| + 1
    ensures |at| == |pieces|
    decreases |pieces|
  {
    if pieces == [] then []
    else [from + |gaps[0]|] + Starts(gaps[1..], pieces[1..], from + |gaps[0]| + |pieces[0]|)
  }

  /** The text from the cursor on is the interleaving. */
  predicate Reads(text: Text, from: nat, gaps: seq<Text>, pieces: seq<Text>)
    requires |gaps| == |pieces| + 1
  {
    from <= |text| && text[from..] == Interleave(gaps, pieces)
  }

  lemma ReadsOn(text: Text, from: nat, gaps: seq<Text>, pieces: seq<Text>)
    requires |gaps| == |pieces| + 1 && pieces != [] && Reads(text, from, gaps, pieces)
    ensures var at := from + |gaps[0]|;
            MatchAt(text, at, pieces[0]) && text[from..at] == gaps[0]
                && Reads(text, at + |pieces[0]|, gaps[1..], pieces[1..])
  {
    var g, x, rest := gaps[0], pieces[0], Interleave(gaps[1..], pieces[1..]);
    var tail := text[from..];
    assert tail == g + x + rest;
    assert text[from..from + |g|] == tail[..|g|];
    assert text[from + |g|..from + |g| + |x|] == tail[|g|..|g| + |x|];
    assert text[from + |g| + |x|..] == tail[|g| + |x|..];
  }

  /** An interleaving holds its own pieces in order. */
  lemma {:induction false} InterleaveIsPlaced(text: Text, from: nat, gaps: seq<Text>, pieces: seq<Text>)
    requires |gaps| == |pieces| + 1 && Reads(text, from, gaps, pieces)
    ensures Placed(text, from, pieces, Starts(gaps, pieces, from))
    decreases |pieces|
  {
    if pieces != [] {
      ReadsOn(text, from, gaps, pieces);
      InterleaveIsPlaced(text, from + |gaps[0]| + |pieces[0]|, gaps[1..], pieces[1..]);
    }
  }

  /** What a rewrite produces can be located again. */
  lemma RewriteCanBeLocated(text: Text, pieces: seq<Text>, at: seq<nat>, others: seq<Text>)
    requires Placed(text, 0, pieces, at) && |others| == |pieces|
    ensures Locate(Rewrite(text, 0, pieces, at, others), 0, others).Some?
  {
    var gaps := Gaps(text, 0, pieces, at);
    var rewritten := Interleave(gaps, others);
    assert rewritten[0..] == rewritten;
    InterleaveIsPlaced(rewritten, 0, gaps, others);
    GreedyIsLeftmost(rewritten, 0, others, Starts(gaps, others, 0), 0);
  }
}
