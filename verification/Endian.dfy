/** Fixed-width integers in byte strings, as encoding/binary reads them. */
module Endian {
  import opened Common

  /** The value of the bytes in big-endian order. */
  function BigEndian(b: Bytes): nat {
    if b == [] then 0 else BigEndian(b[..|b| - 1]) * 256 + b[|b| - 1] as nat
  }

  function LittleEndian(b: Bytes): nat {
    if b == [] then 0 else b[0] as nat + 256 * LittleEndian(b[1..])
  }

  function Power256(n: nat): nat {
    if n == 0 then 1 else 256 * Power256(n - 1)
  }

  lemma {:induction false} BigEndianBound(b: Bytes)
    ensures BigEndian(b) < Power256(|b|)
  {
    if b != [] {
      BigEndianBound(b[..|b| - 1]);
    }
  }

  lemma {:induction false} LittleEndianBound(b: Bytes)
    ensures LittleEndian(b) < Power256(|b|)
  {
    if b != [] {
      LittleEndianBound(b[1..]);
    }
  }

  lemma Powers()
    ensures Power256(2) == 0x1_0000 && Power256(4) == 0x1_0000_0000 && Power256(8) == 0x1_0000_0000_0000_0000
  {
    assert Power256(1) == 256;
    assert Power256(3) == 256 * Power256(2);
    assert Power256(5) == 256 * Power256(4);
    assert Power256(6) == 256 * Power256(5);
    assert Power256(7) == 256 * Power256(6);
  }

  /** binary.BigEndian and binary.LittleEndian: every field fits the type it is read as. */
  function BigUint32(b: Bytes): uint32
    requires |b| == 4
  {
    BigEndianBound(b);
    Powers();
    BigEndian(b)
  }

  function BigUint64(b: Bytes): uint64
    requires |b| == 8
  {
    BigEndianBound(b);
    Powers();
    BigEndian(b)
  }

  function LittleUint16(b: Bytes): uint16
    requires |b| == 2
  {
    LittleEndianBound(b);
    Powers();
    LittleEndian(b)
  }

  function LittleUint32(b: Bytes): uint32
    requires |b| == 4
  {
    LittleEndianBound(b);
    Powers();
    LittleEndian(b)
  }

  function PutBigEndian(value: nat, width: nat): (b: Bytes)
    requires value < Power256(width)
    ensures |b| == width
  {
    if width == 0 then [] else PutBigEndian(value / 256, width - 1) + [(value % 256) as byte]
  }

  lemma {:induction false} PutBigEndianRoundTrip(value: nat, width: nat)
    requires value < Power256(width)
    ensures BigEndian(PutBigEndian(value, width)) == value
  {
    if width > 0 {
      PutBigEndianRoundTrip(value / 256, width - 1);
      var b := PutBigEndian(value, width);
      assert b[..|b| - 1] == PutBigEndian(value / 256, width - 1);
    }
  }

  /** And the other way round: a byte string is the writing of its value. */
  lemma {:induction false} BigEndianIsPut(b: Bytes)
    ensures BigEndian(b) < Power256(|b|) && PutBigEndian(BigEndian(b), |b|) == b
    decreases |b|
  {
    BigEndianBound(b);
    if b != [] {
      var front, last := b[..|b| - 1], b[|b| - 1];
      BigEndianIsPut(front);
      assert BigEndian(b) / 256 == BigEndian(front) && BigEndian(b) % 256 == last as nat;
      assert b == front + [last];
    }
  }

  function PutLittleEndian(value: nat, width: nat): (b: Bytes)
    requires value < Power256(width)
    ensures |b| == width
  {
    if width == 0 then [] else [(value % 256) as byte] + PutLittleEndian(value / 256, width - 1)
  }

  lemma {:induction false} PutLittleEndianRoundTrip(value: nat, width: nat)
    requires value < Power256(width)
    ensures LittleEndian(PutLittleEndian(value, width)) == value
  {
    if width > 0 {
      PutLittleEndianRoundTrip(value / 256, width - 1);
      assert PutLittleEndian(value, width)[1..] == PutLittleEndian(value / 256, width - 1);
    }
  }

  lemma {:induction false} LittleEndianIsPut(b: Bytes)
    ensures LittleEndian(b) < Power256(|b|) && PutLittleEndian(LittleEndian(b), |b|) == b
    decreases |b|
  {
    LittleEndianBound(b);
    if b != [] {
      LittleEndianIsPut(b[1..]);
      assert LittleEndian(b) / 256 == LittleEndian(b[1..]) && LittleEndian(b) % 256 == b[0] as nat;
      assert b == [b[0]] + b[1..];
    }
  }
}
