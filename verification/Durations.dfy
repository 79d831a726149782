/** Durations in milliseconds, in the integer widths of internal/audio/m4a.go and internal/audio/wav.go. */
module Durations {
  import opened Common

  /** milliseconds: unsigned 64-bit arithmetic, with the wrap-around it has. */
  function Milliseconds(duration: uint64, timescale: nat): int64
    requires 1 <= timescale < 0x1_0000_0000
  {
    Combined(duration / timescale, WrapUint64(duration % timescale * 1000) / timescale)
  }

  /** Whole seconds and thousandths put together. */
  function Combined(whole: uint64, fraction: uint64): int64 {
    if whole > MAX_UINT64 / 1000 then 0
    else
      var value := WrapUint64(WrapUint64(whole * 1000) + fraction);
      if value > MAX_INT64 then 0 else value
  }

  /** What it is meant to be: the exact floor if that fits int64, else zero. */
  function ExactMilliseconds(duration: nat, timescale: nat): int
    requires timescale >= 1
  {
    if duration * 1000 / timescale <= MAX_INT64 then duration * 1000 / timescale else 0
  }

  lemma QuotientIs(x: int, d: int, q: int)
    requires d > 0 && q * d <= x < (q + 1) * d
    ensures x / d == q
  {
    var e := x / d - q;
    assert x == (x / d) * d + x % d;
    assert e >= 1 ==> e * d >= d;
    assert e <= -1 ==> e * d <= -d;
    assert (x / d) * d == q * d + e * d;
  }

  lemma MovedOut(k: int, m: int, d: int)
    requires d > 0
    ensures (k * d + m) / d == k + m / d
  {
    assert m == (m / d) * d + m % d;
    assert (k + m / d) * d == k * d + (m / d) * d;
    assert (k + m / d + 1) * d == (k + m / d) * d + d;
    QuotientIs(k * d + m, d, k + m / d);
  }

  /** Whole units and remainder converted apart add up to the floor of the exact quotient. */
  lemma ConvertedApart(amount: nat, rate: nat)
    requires rate >= 1
    ensures amount * 1000 / rate == (amount / rate) * 1000 + (amount % rate) * 1000 / rate
  {
    var q, r := amount / rate, amount % rate;
    assert amount == q * rate + r;
    assert amount * 1000 == (q * 1000) * rate + r * 1000;
    MovedOut(q * 1000, r * 1000, rate);
  }

  lemma QuotientBelow(x: nat, d: nat, k: nat)
    requires d > 0 && x < k * d
    ensures x / d < k
  {
    var e := k - x / d;
    assert x == (x / d) * d + x % d;
    assert e * d == k * d - (x / d) * d;
    assert e <= 0 ==> e * d <= 0;
  }

  lemma FractionBelowThousand(remainder: nat, timescale: nat)
    requires remainder < timescale
    ensures remainder * 1000 / timescale < 1000
  {
    QuotientBelow(remainder * 1000, timescale, 1000);
  }

  /** The one quotient whose thousandfold still fits although adding the fraction may not. */
  const LAST_WHOLE: nat := 18446744073709551

  lemma CombinedIsExactIff(whole: uint64, fraction: nat)
    requires fraction < 1000
    ensures var exact := whole * 1000 + fraction;
            && (Combined(whole, fraction) == (if exact <= MAX_INT64 then exact else 0) <==>
                !(whole == LAST_WHOLE && fraction > 616))
            && (whole == LAST_WHOLE && fraction > 616 ==> Combined(whole, fraction) == fraction - 616)
  {}

  /** milliseconds is exact, and zero when the result does not fit, for every duration except
      those whose whole part is the last that fits and whose fraction is above 616 thousandths;
      for those the sum wraps around and a small positive number comes out. */
  lemma MillisecondsIsExactIff(duration: uint64, timescale: nat)
    requires 1 <= timescale < 0x1_0000_0000
    ensures var fraction := duration % timescale * 1000 / timescale;
            && (Milliseconds(duration, timescale) == ExactMilliseconds(duration, timescale) <==>
                !(duration / timescale == LAST_WHOLE && fraction > 616))
            && (duration / timescale == LAST_WHOLE && fraction > 616 ==>
                Milliseconds(duration, timescale) == fraction - 616)
  {
    ConvertedApart(duration, timescale);
    FractionBelowThousand(duration % timescale, timescale);
    assert duration % timescale * 1000 <= MAX_UINT64;
    CombinedIsExactIff(duration / timescale, duration % timescale * 1000 / timescale);
  }

  /** Such a duration exists: three units a second, remainder two. */
  lemma MillisecondsWraps()
    ensures Milliseconds(LAST_WHOLE * 3 + 2, 3) == 50 && ExactMilliseconds(LAST_WHOLE * 3 + 2, 3) == 0
  {}

  /** The duration ProbeWAV computes from whole frames is the exact floor of bytes over byte rate. */
  lemma FramesGiveExactDuration(bytes: nat, blockAlign: nat, sampleRate: nat)
    requires blockAlign >= 1 && sampleRate >= 1 && bytes % blockAlign == 0
    ensures var frames := bytes / blockAlign;
            frames / sampleRate * 1000 + frames % sampleRate * 1000 / sampleRate
                == bytes * 1000 / (sampleRate * blockAlign)
  {
    var frames := bytes / blockAlign;
    ConvertedApart(frames, sampleRate);
    var q := frames * 1000 / sampleRate;
    assert bytes == frames * blockAlign;
    var r := frames * 1000 % sampleRate;
    assert frames * 1000 == q * sampleRate + r;
    assert bytes * 1000 == (frames * 1000) * blockAlign;
    Scaled(q, sampleRate, r, blockAlign);
    QuotientIs(bytes * 1000, sampleRate * blockAlign, q);
  }

  lemma Scaled(q: nat, s: nat, r: nat, b: nat)
    requires r < s && b >= 1
    ensures q * (s * b) <= (q * s + r) * b < (q + 1) * (s * b)
    ensures s * b >= 1
  {
    assert (q * s + r) * b == q * (s * b) + r * b;
    assert r * b <= (s - 1) * b;
    assert (s - 1) * b == s * b - b;
  }
}
