/** The edit-size measure of internal/llm/validation.go: the runes outside the longest common prefix
    and suffix, and what they measure. */
module EditSize {
  import opened Common
  import opened Splice

  // ---------------------------------------------------------------------------
  // changedSpan
  // ---------------------------------------------------------------------------

  /** Both texts begin with the same p characters and end with the same s others. */
  predicate Shares(left: Text, right: Text, p: nat, s: nat) {
    && p + s <= |left| && p + s <= |right|
    && left[..p] == right[..p] && left[|left| - s..] == right[|right| - s..]
  }

  /** The larger of what is removed and what is inserted between them. */
  function Between(left: Text, right: Text, p: nat, s: nat): nat
    requires Shares(left, right, p, s)
  {
    Max(|left| - p - s, |right| - p - s)
  }

  /** The measured size of an edit: the first loop's prefix, then the second loop's suffix. */
  method Measure(left: Text, right: Text) returns (changed: nat)
    ensures exists p, s :: Shares(left, right, p, s) && changed == Between(left, right, p, s)
    ensures forall p, s :: Shares(left, right, p, s) ==> changed <= Between(left, right, p, s)
  {
    var prefix := 0;
    while prefix < |left| && prefix < |right| && left[prefix] == right[prefix]
      invariant prefix <= |left| && prefix <= |right| && left[..prefix] == right[..prefix]
    {
      prefix := prefix + 1;
    }
    var suffix := 0;
    while suffix < |left| - prefix && suffix < |right| - prefix
        && left[|left| - 1 - suffix] == right[|right| - 1 - suffix]
      invariant Shares(left, right, prefix, suffix)
    {
      suffix := suffix + 1;
    }
    changed := Max(|left| - prefix - suffix, |right| - prefix - suffix);
    forall p: nat, s: nat | Shares(left, right, p, s)
      ensures changed <= Between(left, right, p, s)
    {
      MaximalSharing(left, right, prefix, suffix, p, s);
    }
  }

  /** changedSpan: the smallest edit and its share of the longer text. */
  method ChangedSpan(left: Text, right: Text) returns (changed: nat, ratio: real)
    ensures changed == Size(left, right) && ratio == Ratio(left, right)
  {
    changed := Measure(left, right);
    LeastIsSize(left, right, changed);
    var denominator := Max(|left|, |right|);
    ratio := if denominator == 0 then 0.0 else changed as real / denominator as real;
  }

  lemma LeastIsSize(left: Text, right: Text, changed: nat)
    requires exists p, s :: Shares(left, right, p, s) && changed == Between(left, right, p, s)
    requires forall p, s :: Shares(left, right, p, s) ==> changed <= Between(left, right, p, s)
    ensures changed == Size(left, right)
  {
    SizeIsLeast(left, right);
  }

  lemma PrefixAgrees(left: Text, right: Text, p: nat, s: nat, i: nat)
    requires Shares(left, right, p, s) && i < p
    ensures left[i] == right[i]
  {
    assert left[..p][i] == right[..p][i];
  }

  lemma SuffixAgrees(left: Text, right: Text, p: nat, s: nat, i: nat)
    requires Shares(left, right, p, s) && i < s
    ensures left[|left| - 1 - i] == right[|right| - 1 - i]
  {
    assert left[|left| - s..][s - 1 - i] == right[|right| - s..][s - 1 - i];
  }

  /** Prefix first, then suffix, is as much as can be shared. */
  lemma MaximalSharing(left: Text, right: Text, prefix: nat, suffix: nat, p: nat, s: nat)
    requires Shares(left, right, prefix, suffix) && Shares(left, right, p, s)
    requires prefix == |left| || prefix == |right| || left[prefix] != right[prefix]
    requires suffix == |left| - prefix || suffix == |right| - prefix
             || left[|left| - 1 - suffix] != right[|right| - 1 - suffix]
    ensures p <= prefix && p + s <= prefix + suffix
  {
    if p > prefix {
      PrefixAgrees(left, right, p, s, prefix);
    } else if s > suffix {
      SuffixAgrees(left, right, p, s, suffix);
    }
  }

  function CommonPrefix(left: Text, right: Text, p: nat): (r: nat)
    requires Shares(left, right, p, 0)
    ensures Shares(left, right, r, 0) && (r == |left| || r == |right| || left[r] != right[r])
    decreases |left| - p
  {
    if p < |left| && p < |right| && left[p] == right[p] then CommonPrefix(left, right, p + 1) else p
  }

  function CommonSuffix(left: Text, right: Text, p: nat, s: nat): (r: nat)
    requires Shares(left, right, p, s)
    ensures Shares(left, right, p, r)
    ensures r == |left| - p || r == |right| - p || left[|left| - 1 - r] != right[|right| - 1 - r]
    decreases |left| - s
  {
    if s < |left| - p && s < |right| - p && left[|left| - 1 - s] == right[|right| - 1 - s]
        then CommonSuffix(left, right, p, s + 1) else s
  }

  function Size(left: Text, right: Text): nat {
    var p := CommonPrefix(left, right, 0);
    Max(|left|, |right|) - p - CommonSuffix(left, right, p, 0)
  }

  function Ratio(left: Text, right: Text): real {
    if Max(|left|, |right|) == 0 then 0.0 else Size(left, right) as real / Max(|left|, |right|) as real
  }

  /** No way of writing both texts with a shared beginning and a shared end leaves less between. */
  lemma SizeIsLeast(left: Text, right: Text)
    ensures exists p, s :: Shares(left, right, p, s) && Size(left, right) == Between(left, right, p, s)
    ensures forall p, s :: Shares(left, right, p, s) ==> Size(left, right) <= Between(left, right, p, s)
  {
    var prefix := CommonPrefix(left, right, 0);
    var suffix := CommonSuffix(left, right, prefix, 0);
    assert Shares(left, right, prefix, suffix);
    forall p: nat, s: nat | Shares(left, right, p, s)
      ensures Size(left, right) <= Between(left, right, p, s)
    {
      MaximalSharing(left, right, prefix, suffix, p, s);
    }
  }

  lemma SizeIsSymmetric(left: Text, right: Text)
    ensures Size(left, right) == Size(right, left)
  {
    SizeIsLeast(left, right);
    SizeIsLeast(right, left);
    var p: nat, s: nat :| Shares(left, right, p, s) && Size(left, right) == Between(left, right, p, s);
    assert Shares(right, left, p, s);
    var q: nat, t: nat :| Shares(right, left, q, t) && Size(right, left) == Between(right, left, q, t);
    assert Shares(left, right, q, t);
  }

  lemma SizeIsZeroIffEqual(left: Text, right: Text)
    ensures Size(left, right) == 0 <==> left == right
  {
    SizeIsLeast(left, right);
    if left == right {
      assert Shares(left, right, |left|, 0);
    }
    var p: nat, s: nat :| Shares(left, right, p, s) && Size(left, right) == Between(left, right, p, s);
    if Size(left, right) == 0 {
      assert left == left[..p] + left[|left| - s..] && right == right[..p] + right[|right| - s..];
    }
  }
}
