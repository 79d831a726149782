/** Descriptors with expandable lengths, section 8.3.3 of ISO/IEC 14496-1, as internal/audio/m4a.go
    reads them. */
module Descriptors {
  import opened Common

  /** A descriptor: its tag, where its payload lies, and thereby where the next one starts. */
  datatype Descriptor = Descriptor(tag: byte, start: nat, end: nat)

  /** The length loop: seven bits a byte, the high bit set on all but the last, at most `left` bytes. */
  function ReadLength(data: Bytes, offset: nat, left: nat, length: nat): Option<(nat, nat)>
    decreases left
  {
    if left == 0 || offset >= |data| then None
    else
      var next := length * 128 + (data[offset] as nat) % 128;
      if data[offset] < 128 then Some((next, offset + 1)) else ReadLength(data, offset + 1, left - 1, next)
  }

  lemma {:induction false} LengthIsBounded(data: Bytes, offset: nat, left: nat, length: nat, bound: nat)
    requires ReadLength(data, offset, left, length).Some? && length < bound && left <= 4
    ensures var r := ReadLength(data, offset, left, length).value;
            offset < r.1 <= offset + left && r.1 <= |data|
            && r.0 < bound * (if left == 4 then 0x1000_0000 else if left == 3 then 0x20_0000 else if left == 2
                              then 0x4000 else 0x80)
    decreases left
  {
    if data[offset] >= 128 {
      LengthIsBounded(data, offset + 1, left - 1, length * 128 + (data[offset] as nat) % 128, bound * 128);
    }
  }

  /** readDescriptor */
  function ReadDescriptor(data: Bytes, offset: int): (r: Option<Descriptor>)
    ensures r.Some? ==>
            0 <= offset && offset + 2 <= r.value.start <= r.value.end <= |data|
            && r.value.tag == data[offset]
  {
    if offset < 0 || offset >= |data| then None
    else match ReadLength(data, offset + 1, 4, 0)
      case None => None
      case Some(r) =>
        LengthIsBounded(data, offset + 1, 4, 0, 1);
        if r.0 > |data| - r.1 then None else Some(Descriptor(data[offset], r.1, r.1 + r.0))
  }

  /** The same with the source's loop. */
  method ParseDescriptor(data: Bytes, start: int) returns (r: Option<Descriptor>)
    ensures r == ReadDescriptor(data, start)
  {
    if start < 0 || start >= |data| {
      return None;
    }
    var offset, length, terminated := start + 1, 0, false;
    for i := 0 to 4
      invariant start < offset && length >= 0 && !terminated
      invariant ReadLength(data, start + 1, 4, 0) == ReadLength(data, offset, 4 - i, length)
    {
      if offset >= |data| {
        return None;
      }
      var current := data[offset];
      offset := offset + 1;
      length := length * 128 + (current as nat) % 128;
      if current < 128 {
        terminated := true;
        break;
      }
    }
    if !terminated || length > |data| - offset {
      return None;
    }
    return Some(Descriptor(data[start], offset, offset + length));
  }

  // ---------------------------------------------------------------------------
  // Round trip
  // ---------------------------------------------------------------------------

  function Capacity(n: nat): nat
    requires 1 <= n <= 4
  {
    if n == 1 then 0x80 else if n == 2 then 0x4000 else if n == 3 then 0x20_0000 else 0x1000_0000
  }

  /** The length in n bytes; writers may use more bytes than needed. */
  function EncodeLength(length: nat, n: nat): (r: Bytes)
    requires 1 <= n <= 4 && length < Capacity(n)
    ensures |r| == n
  {
    var d0, d1, d2, d3 := length % 128, length / 128 % 128, length / 0x4000 % 128, length / 0x20_0000;
    if n == 1 then [d0 as byte]
    else if n == 2 then [(128 + d1) as byte, d0 as byte]
    else if n == 3 then [(128 + d2) as byte, (128 + d1) as byte, d0 as byte]
    else [(128 + d3) as byte, (128 + d2) as byte, (128 + d1) as byte, d0 as byte]
  }

  lemma Digits(length: nat)
    requires length < 0x1000_0000
    ensures (length / 0x20_0000) * 128 + length / 0x4000 % 128 == length / 0x4000
    ensures length / 0x4000 * 128 + length / 128 % 128 == length / 128
    ensures length / 128 * 128 + length % 128 == length
  {}

  /** A byte with the high bit set passes its digit on. */
  lemma DigitPassed(data: Bytes, offset: nat, left: nat, length: nat, digit: nat)
    requires left > 0 && offset < |data| && digit < 128 && data[offset] as nat == 128 + digit
    ensures ReadLength(data, offset, left, length) == ReadLength(data, offset + 1, left - 1, length * 128 + digit)
  {}

  lemma LongLengthReadsBack(data: Bytes, offset: nat, length: nat)
    requires length < Capacity(4) && offset + 4 <= |data| && data[offset..offset + 4] == EncodeLength(length, 4)
    ensures ReadLength(data, offset, 4, 0) == Some((length, offset + 4))
  {
    var e := EncodeLength(length, 4);
    assert data[offset] == e[0] && data[offset + 1] == e[1] && data[offset + 2] == e[2] && data[offset + 3] == e[3];
    Digits(length);
    DigitPassed(data, offset, 4, 0, length / 0x20_0000);
    DigitPassed(data, offset + 1, 3, length / 0x20_0000, length / 0x4000 % 128);
    DigitPassed(data, offset + 2, 2, length / 0x4000, length / 128 % 128);
  }

  lemma MediumLengthReadsBack(data: Bytes, offset: nat, length: nat)
    requires length < Capacity(3) && offset + 3 <= |data| && data[offset..offset + 3] == EncodeLength(length, 3)
    ensures ReadLength(data, offset, 4, 0) == Some((length, offset + 3))
  {
    var e := EncodeLength(length, 3);
    assert data[offset] == e[0] && data[offset + 1] == e[1] && data[offset + 2] == e[2];
    Digits(length);
    DigitPassed(data, offset, 4, 0, length / 0x4000);
    DigitPassed(data, offset + 1, 3, length / 0x4000, length / 128 % 128);
  }

  lemma ShortLengthReadsBack(data: Bytes, offset: nat, length: nat)
    requires length < Capacity(2) && offset + 2 <= |data| && data[offset..offset + 2] == EncodeLength(length, 2)
    ensures ReadLength(data, offset, 4, 0) == Some((length, offset + 2))
  {
    var e := EncodeLength(length, 2);
    assert data[offset] == e[0] && data[offset + 1] == e[1];
    Digits(length);
    DigitPassed(data, offset, 4, 0, length / 128);
  }

  lemma LengthReadsBack(data: Bytes, offset: nat, length: nat, n: nat)
    requires 1 <= n <= 4 && length < Capacity(n) && offset + n <= |data|
             && data[offset..offset + n] == EncodeLength(length, n)
    ensures ReadLength(data, offset, 4, 0) == Some((length, offset + n))
  {
    if n == 4 {
      LongLengthReadsBack(data, offset, length);
    } else if n == 3 {
      MediumLengthReadsBack(data, offset, length);
    } else if n == 2 {
      ShortLengthReadsBack(data, offset, length);
    } else {
      assert data[offset] == EncodeLength(length, 1)[0];
    }
  }

  /** A written descriptor is read back, for every payload shorter than 2^28 and every way of
      writing its length. */
  lemma DescriptorReadsBack(data: Bytes, offset: nat, tag: byte, payload: Bytes, n: nat)
    requires 1 <= n <= 4 && |payload| < Capacity(n) && offset + 1 + n + |payload| <= |data|
    requires data[offset] == tag && data[offset + 1..offset + 1 + n] == EncodeLength(|payload|, n)
    requires data[offset + 1 + n..offset + 1 + n + |payload|] == payload
    ensures var r := ReadDescriptor(data, offset);
            r.Some? && r.value.tag == tag && data[r.value.start..r.value.end] == payload
                && r.value.end == offset + 1 + n + |payload|
  {
    LengthReadsBack(data, offset + 1, |payload|, n);
  }

  /** The digits of a number written with k more digits after it. */
  lemma DigitOf(high: nat, digit: nat)
    requires digit < 128
    ensures (high * 128 + digit) / 128 == high && (high * 128 + digit) % 128 == digit
  {}

  /** The length loop stops at the first byte below 128. */
  lemma LengthStops(data: Bytes, offset: nat, left: nat, length: nat)
    requires left > 0 && offset < |data| && ReadLength(data, offset, left, length).Some?
    ensures data[offset] < 128 ==>
            ReadLength(data, offset, left, length) == Some((length * 128 + data[offset] as nat, offset + 1))
    ensures data[offset] >= 128 ==>
              ReadLength(data, offset, left, length)
                  == ReadLength(data, offset + 1, left - 1, length * 128 + (data[offset] as nat - 128))
  {}

  predicate Writes(data: Bytes, offset: nat, length: nat, n: nat) {
    1 <= n <= 4 && length < Capacity(n) && offset + n <= |data| && data[offset..offset + n] == EncodeLength(length, n)
  }

  lemma WritesOne(data: Bytes, offset: nat)
    requires offset < |data| && data[offset] < 128
    ensures Writes(data, offset, data[offset] as nat, 1)
  {}

  lemma WritesTwo(data: Bytes, offset: nat)
    requires offset + 1 < |data| && data[offset] >= 128 && data[offset + 1] < 128
    ensures Writes(data, offset, (data[offset] as nat - 128) * 128 + data[offset + 1] as nat, 2)
  {
    var a, b := data[offset] as nat - 128, data[offset + 1] as nat;
    DigitOf(a, b);
    assert data[offset..offset + 2] == [data[offset], data[offset + 1]];
  }

  lemma WritesThree(data: Bytes, offset: nat)
    requires offset + 2 < |data| && data[offset] >= 128 && data[offset + 1] >= 128 && data[offset + 2] < 128
    ensures Writes(data, offset,
                   ((data[offset] as nat - 128) * 128 + (data[offset + 1] as nat - 128)) * 128
                       + data[offset + 2] as nat, 3)
  {
    var a, b, c := data[offset] as nat - 128, data[offset + 1] as nat - 128, data[offset + 2] as nat;
    var length := (a * 128 + b) * 128 + c;
    DigitOf(a * 128 + b, c);
    DigitOf(a, b);
    assert length / 0x4000 == a;
    assert data[offset..offset + 3] == [data[offset], data[offset + 1], data[offset + 2]];
  }

  lemma WritesFour(data: Bytes, offset: nat)
    requires offset + 3 < |data| && data[offset] >= 128 && data[offset + 1] >= 128 && data[offset + 2] >= 128
             && data[offset + 3] < 128
    ensures Writes(data, offset,
                   (((data[offset] as nat - 128) * 128 + (data[offset + 1] as nat - 128)) * 128
                    + (data[offset + 2] as nat - 128)) * 128
                   + data[offset + 3] as nat, 4)
  {
    var a, b, c, d := data[offset] as nat - 128, data[offset + 1] as nat - 128, data[offset + 2] as nat - 128,
        data[offset + 3] as nat;
    var length := ((a * 128 + b) * 128 + c) * 128 + d;
    DigitOf((a * 128 + b) * 128 + c, d);
    DigitOf(a * 128 + b, c);
    DigitOf(a, b);
    assert length / 0x4000 == a * 128 + b && length / 0x20_0000 == a;
    assert data[offset..offset + 4] == [data[offset], data[offset + 1], data[offset + 2], data[offset + 3]];
  }

  /** The third and fourth byte, after two with the high bit set. */
  lemma LongLengthIsWritten(data: Bytes, offset: nat, b: nat)
    requires offset + 1 < |data| && data[offset] >= 128 && data[offset + 1] >= 128
    requires b == (data[offset] as nat - 128) * 128 + (data[offset + 1] as nat - 128)
             && ReadLength(data, offset + 2, 2, b).Some?
    ensures var r := ReadLength(data, offset + 2, 2, b).value;
            offset < r.1 && Writes(data, offset, r.0, r.1 - offset)
  {
    LengthStops(data, offset + 2, 2, b);
    if data[offset + 2] < 128 {
      WritesThree(data, offset);
    } else {
      LengthStops(data, offset + 3, 1, b * 128 + (data[offset + 2] as nat - 128));
      WritesFour(data, offset);
    }
  }

  /** The second byte, after one with the high bit set. */
  lemma TwoByteLengthIsWritten(data: Bytes, offset: nat, a: nat)
    requires offset < |data| && data[offset] >= 128 && a == data[offset] as nat - 128
             && ReadLength(data, offset + 1, 3, a).Some?
    ensures var r := ReadLength(data, offset + 1, 3, a).value;
            offset < r.1 && Writes(data, offset, r.0, r.1 - offset)
  {
    LengthStops(data, offset + 1, 3, a);
    if data[offset + 1] < 128 {
      WritesTwo(data, offset);
    } else {
      LongLengthIsWritten(data, offset, a * 128 + (data[offset + 1] as nat - 128));
    }
  }

  /** A length that is read was written, in as many bytes as were read. */
  lemma ReadLengthIsWritten(data: Bytes, offset: nat)
    requires ReadLength(data, offset, 4, 0).Some?
    ensures var r := ReadLength(data, offset, 4, 0).value;
            offset < r.1 && Writes(data, offset, r.0, r.1 - offset)
  {
    LengthStops(data, offset, 4, 0);
    if data[offset] < 128 {
      WritesOne(data, offset);
    } else {
      TwoByteLengthIsWritten(data, offset, data[offset] as nat - 128);
    }
  }

  /** Nothing else is accepted: every descriptor that is read was written, tag, length and payload. */
  lemma ReadDescriptorIsWritten(data: Bytes, offset: nat) returns (n: nat)
    requires ReadDescriptor(data, offset).Some?
    ensures var d := ReadDescriptor(data, offset).value;
            && data[offset] == d.tag && d.start == offset + 1 + n && Writes(data, offset + 1, d.end - d.start, n)
  {
    ReadLengthIsWritten(data, offset + 1);
    n := ReadLength(data, offset + 1, 4, 0).value.1 - (offset + 1);
  }

  // ---------------------------------------------------------------------------
  // The descriptors of a decoder configuration
  // ---------------------------------------------------------------------------

  /** The descriptors from the offset to the end of the data. */
  function AllFrom(data: Bytes, offset: nat): (r: Option<seq<Descriptor>>)
    decreases |data| - offset
  {
    if offset >= |data| then Some([])
    else match ReadDescriptor(data, offset)
      case None => None
      case Some(d) =>
        match AllFrom(data, d.end)
        case None => None
        case Some(rest) => Some([d] + rest)
  }

  const DECODER_SPECIFIC_INFO: byte := 5

  function Specific(all: seq<Descriptor>): seq<Descriptor> {
    if all == [] then []
    else (if all[0].tag == DECODER_SPECIFIC_INFO then [all[0]] else []) + Specific(all[1..])
  }

  /** The loop of validateAACDecoderConfig: it ends, never leaves the buffer, and finds the
      AudioSpecificConfig exactly when all descriptors are sound and exactly one carries it. */
  method FindSpecificConfig(payload: Bytes) returns (r: Option<Bytes>)
    requires |payload| >= 13
    ensures var all := AllFrom(payload, 13);
            r.Some? <==> all.Some? && |Specific(all.value)| == 1
    ensures var all := AllFrom(payload, 13);
            r.Some? ==> Specific(all.value)[0].start <= Specific(all.value)[0].end <= |payload|
                        && r.value == payload[Specific(all.value)[0].start..Specific(all.value)[0].end]
  {
    ghost var all := AllFrom(payload, 13);
    var found: Option<Descriptor> := None;
    var offset := 13;
    while offset < |payload|
      invariant 13 <= offset <= |payload|
      invariant found.Some? ==> found.value.start <= found.value.end <= |payload|
      invariant all.Some? <==> AllFrom(payload, offset).Some?
      invariant all.Some? ==>
                Specific(all.value) == (if found.Some? then [found.value] else [])
                + Specific(AllFrom(payload, offset).value)
      decreases |payload| - offset
    {
      var d := ReadDescriptor(payload, offset);
      if d.None? {
        return None;
      }
      ghost var rest := AllFrom(payload, d.value.end);
      if rest.Some? {
        assert ([d.value] + rest.value)[1..] == rest.value;
      }
      if d.value.tag == DECODER_SPECIFIC_INFO {
        if found.Some? {
          return None;
        }
        found := d;
      }
      offset := d.value.end;
    }
    if found.None? {
      return None;
    }
    return Some(payload[found.value.start..found.value.end]);
  }
}
