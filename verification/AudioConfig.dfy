/** AudioSpecificConfig, section 1.6.2.1 of ISO/IEC 14496-3, and the bit reader under it, as in
    internal/audio/m4a.go. */
module AudioConfig {
  import opened Common

  // ---------------------------------------------------------------------------
  // Bits
  // ---------------------------------------------------------------------------

  /** Bit i of a byte, counted from the high end: shifted right by 7 - i, lowest bit. */
  function BitInByte(x: nat, i: nat): (bit: nat)
    requires i < 8
    ensures bit < 2
    decreases 7 - i
  {
    if i == 7 then x % 2 else BitInByte(x / 2, i + 1)
  }

  /** Bit i of the data, the high bit of each byte first. */
  function Bit(data: Bytes, i: nat): nat
    requires i < 8 * |data|
  {
    BitInByte(data[i / 8] as nat, i % 8)
  }

  /** The number the bits from offset on spell. */
  function Value(data: Bytes, offset: nat, count: nat): (v: nat)
    requires offset + count <= 8 * |data|
    ensures v < Pow2(count)
  {
    if count == 0 then 0 else 2 * Value(data, offset, count - 1) + Bit(data, offset + count - 1)
  }

  /** x shifted left by n bits. */
  function Shift(x: nat, n: nat): nat {
    if n == 0 then x else 2 * Shift(x, n - 1)
  }

  lemma Doubled(x: nat, p: nat)
    ensures x * (2 * p) == 2 * (x * p)
  {}

  lemma {:induction false} ShiftIsProduct(x: nat, n: nat)
    ensures Shift(x, n) == x * Pow2(n)
  {
    if n > 0 {
      ShiftIsProduct(x, n - 1);
      Doubled(x, Pow2(n - 1));
    }
  }

  lemma LastBit(data: Bytes, offset: nat, count: nat, i: nat)
    requires count > 0 && offset + count <= 8 * |data| && i == offset + count - 1
    ensures Value(data, offset, count) == 2 * Value(data, offset, count - 1) + Bit(data, i)
  {}

  lemma ShiftedOnce(high: nat, low: nat, b: nat, bit: nat)
    requires b > 0
    ensures 2 * (Shift(high, b - 1) + low) + bit == Shift(high, b) + (2 * low + bit)
  {}

  lemma {:induction false} ReadsShift(data: Bytes, offset: nat, a: nat, b: nat)
    requires offset + a + b <= 8 * |data|
    ensures Value(data, offset, a + b) == Shift(Value(data, offset, a), b) + Value(data, offset + a, b)
    decreases b
  {
    if b > 0 {
      var i := offset + a + b - 1;
      ReadsShift(data, offset, a, b - 1);
      LastBit(data, offset, a + b, i);
      LastBit(data, offset + a, b, i);
      ShiftedOnce(Value(data, offset, a), Value(data, offset + a, b - 1), b, Bit(data, i));
    }
  }

  /** Reading a bits and then b bits is reading a + b bits and splitting at b. */
  lemma ReadsCompose(data: Bytes, offset: nat, a: nat, b: nat)
    requires offset + a + b <= 8 * |data|
    ensures Value(data, offset, a + b) == Value(data, offset, a) * Pow2(b) + Value(data, offset + a, b)
  {
    ReadsShift(data, offset, a, b);
    ShiftIsProduct(Value(data, offset, a), b);
  }

  class BitReader {
    const data: Bytes
    var bitOffset: nat

    constructor (data: Bytes)
      ensures this.data == data && bitOffset == 0
    {
      this.data := data;
      bitOffset := 0;
    }

    /** bitReader.read in 32-bit arithmetic. */
    method Read(count: int) returns (r: Option<uint32>)
      modifies this`bitOffset
      ensures r.Some? <==> 1 <= count <= 24 && old(bitOffset) + count <= 8 * |data|
      ensures r.Some? ==> r.value == Value(data, old(bitOffset), count) && bitOffset == old(bitOffset) + count
      ensures r.None? ==> bitOffset == old(bitOffset)
    {
      if count < 1 || count > 24 || bitOffset + count > 8 * |data| {
        return None;
      }
      var value: uint32 := 0;
      for i := 0 to count
        invariant bitOffset == old(bitOffset) + i && old(bitOffset) + count <= 8 * |data|
        invariant value == Value(data, old(bitOffset), i)
      {
        ValuesFit32(data, old(bitOffset), i + 1);
        value := value * 2 + BitInByte(data[bitOffset / 8] as nat, bitOffset % 8);
        bitOffset := bitOffset + 1;
      }
      return Some(value);
    }
  }

  lemma ValuesFit32(data: Bytes, offset: nat, count: nat)
    requires count <= 24 && offset + count <= 8 * |data|
    ensures Value(data, offset, count) <= MAX_UINT32
  {
    Pow2Grows(count, 24);
    assert Pow2(24) == 16 * Pow2(20) && Pow2(20) == 1024 * Pow2(10) && Pow2(10) == 1024;
  }

  lemma {:induction false} Pow2Grows(a: nat, b: nat)
    requires a <= b
    ensures Pow2(a) <= Pow2(b)
    decreases b
  {
    if a < b {
      Pow2Grows(a, b - 1);
    }
  }

  // ---------------------------------------------------------------------------
  // The configuration
  // ---------------------------------------------------------------------------

  const SAMPLE_RATES: seq<nat> :=
      [96_000, 88_200, 64_000, 48_000, 44_100, 32_000, 24_000, 22_050, 16_000, 12_000, 11_025, 8_000, 7_350]

  /** The table has three families, each half the rate of its predecessor three places before, and
      the odd last entry; it is strictly decreasing, so no rate can be written by two indices. */
  lemma RatesHalve()
    ensures SAMPLE_RATES[..3] == [96_000, 88_200, 64_000] && SAMPLE_RATES[12..] == [7_350]
    ensures forall i :: 3 <= i < 12 ==> 2 * SAMPLE_RATES[i] == SAMPLE_RATES[i - 3]
    ensures forall i, j :: 0 <= i < j < |SAMPLE_RATES| ==> SAMPLE_RATES[i] > SAMPLE_RATES[j]
  {}

  datatype Config = Config(objectType: nat, sampleRate: nat, channels: nat)

  function ReadBits(data: Bytes, offset: nat, count: nat): Option<nat> {
    if count < 1 || count > 24 || offset + count > 8 * |data| then None else Some(Value(data, offset, count))
  }

  /** readAudioObjectType: the type and where it ends. */
  function ObjectType(data: Bytes): Option<(nat, nat)> {
    match ReadBits(data, 0, 5)
    case None => None
    case Some(v) =>
      if v != 31 then Some((v, 5))
      else match ReadBits(data, 5, 6)
        case None => None
        case Some(extension) => Some((32 + extension, 11))
  }

  function SampleRate(data: Bytes, offset: nat): Option<(nat, nat)> {
    match ReadBits(data, offset, 4)
    case None => None
    case Some(index) =>
      if index == 15 then
        match ReadBits(data, offset + 4, 24)
        case None => None
        case Some(rate) => if rate < 1_000 || rate > 192_000 then None else Some((rate, offset + 28))
      else if index >= |SAMPLE_RATES| then None
      else Some((SAMPLE_RATES[index], offset + 4))
  }

  /** parseAudioSpecificConfig */
  function ParseConfig(data: Bytes): Option<Config> {
    match ObjectType(data)
    case None => None
    case Some(t) =>
      match SampleRate(data, t.1)
      case None => None
      case Some(r) =>
        match ReadBits(data, r.1, 4)
        case None => None
        case Some(c) => if c == 0 || c > 7 then None else Some(Config(t.0, r.0, if c == 7 then 8 else c))
  }

  method ReadObjectType(bits: BitReader) returns (r: Option<nat>)
    requires bits.bitOffset == 0
    modifies bits
    ensures match ObjectType(bits.data)
            case None => r == None
            case Some(t) => r == Some(t.0) && bits.bitOffset == t.1
  {
    r := bits.Read(5);
    if r.Some? && r.value == 31 {
      var extension := bits.Read(6);
      if extension.None? {
        return None;
      }
      return Some(32 + extension.value);
    }
  }

  method ReadSampleRate(bits: BitReader) returns (r: Option<nat>)
    modifies bits
    ensures match SampleRate(bits.data, old(bits.bitOffset))
            case None => r == None
            case Some(t) => r == Some(t.0) && bits.bitOffset == t.1
  {
    var index := bits.Read(4);
    if index.None? {
      return None;
    }
    if index.value == 15 {
      var explicit := bits.Read(24);
      if explicit.None? || explicit.value < 1_000 || explicit.value > 192_000 {
        return None;
      }
      return explicit;
    }
    if index.value >= |SAMPLE_RATES| {
      return None;
    }
    return Some(SAMPLE_RATES[index.value]);
  }

  method Parse(data: Bytes) returns (r: Option<Config>)
    ensures r == ParseConfig(data)
  {
    var bits := new BitReader(data);
    var objectType := ReadObjectType(bits);
    if objectType.None? {
      return None;
    }
    var rate := ReadSampleRate(bits);
    if rate.None? {
      return None;
    }
    var channels := bits.Read(4);
    if channels.None? || channels.value == 0 || channels.value > 7 {
      return None;
    }
    return Some(Config(objectType.value, rate.value, if channels.value == 7 then 8 else channels.value));
  }

  // ---------------------------------------------------------------------------
  // What the parser accepts
  // ---------------------------------------------------------------------------

  datatype Rate = Indexed(index: nat) | Explicit(rate: nat)

  /** A configuration as a writer lays it out; the sample rate can be written in two ways. */
  datatype Layout = Layout(objectType: nat, rate: Rate, channelConfiguration: nat)

  predicate ValidLayout(l: Layout) {
    && (l.objectType < 31 || 32 <= l.objectType < 96)
    && ValidRate(l.rate)
    && 1 <= l.channelConfiguration <= 7
  }

  function Meaning(l: Layout): Config
    requires ValidLayout(l)
  {
    Config(l.objectType, RateOf(l.rate), if l.channelConfiguration == 7 then 8 else l.channelConfiguration)
  }

  /** A field: its width in bits and its value. */
  datatype Field = Field(width: nat, value: nat)

  function FieldsOf(l: Layout): seq<Field>
    requires ValidLayout(l)
  {
    TypeFields(l.objectType) + RateFields(l.rate) + [Field(4, l.channelConfiguration)]
  }

  /** The data spells the fields from the offset on. */
  predicate Spells(data: Bytes, offset: nat, fields: seq<Field>)
    decreases |fields|
  {
    fields == [] ||
    (offset + fields[0].width <= 8 * |data| && Value(data, offset, fields[0].width) == fields[0].value
     && Spells(data, offset + fields[0].width, fields[1..]))
  }

  function Total(fields: seq<Field>): nat {
    if fields == [] then 0 else fields[0].width + Total(fields[1..])
  }

  lemma {:induction false} SpellsAppend(data: Bytes, offset: nat, a: seq<Field>, b: seq<Field>)
    ensures Spells(data, offset, a + b) <==> Spells(data, offset, a) && Spells(data, offset + Total(a), b)
    decreases |a|
  {
    if a == [] {
      assert a + b == b;
    } else {
      assert (a + b)[1..] == a[1..] + b;
      SpellsAppend(data, offset + a[0].width, a[1..], b);
    }
  }

  function TypeFields(objectType: nat): seq<Field>
    requires objectType < 31 || 32 <= objectType
  {
    if objectType < 31 then [Field(5, objectType)] else [Field(5, 31), Field(6, objectType - 32)]
  }

  function RateFields(rate: Rate): seq<Field> {
    match rate case Indexed(i) => [Field(4, i)] case Explicit(r) => [Field(4, 15), Field(24, r)]
  }

  lemma TotalOne(f: Field)
    ensures Total([f]) == f.width
  {
    assert [f][1..] == [];
    assert Total([f][1..]) == 0;
  }

  lemma SpellsOne(data: Bytes, offset: nat, f: Field)
    ensures Spells(data, offset, [f]) <==> offset + f.width <= 8 * |data| && Value(data, offset, f.width) == f.value
  {
    assert [f][1..] == [];
  }

  lemma SpellsTwo(data: Bytes, offset: nat, f: Field, g: Field)
    ensures Spells(data, offset, [f, g]) <==> Spells(data, offset, [f]) && Spells(data, offset + f.width, [g])
    ensures Total([f, g]) == f.width + g.width
  {
    TotalOne(f);
    TotalOne(g);
    assert [f] + [g] == [f, g];
    SpellsAppend(data, offset, [f], [g]);
    TotalAppend([f], [g]);
  }

  lemma ShortValues(data: Bytes, offset: nat, count: nat)
    requires count <= 6 && offset + count <= 8 * |data|
    ensures Value(data, offset, count) < (if count == 4 then 16 else if count == 5 then 32 else 64)
  {
    Pow2Grows(count, 6);
    assert Pow2(4) == 16 && Pow2(5) == 2 * Pow2(4) && Pow2(6) == 2 * Pow2(5);
  }

  lemma ObjectTypeIff(data: Bytes, objectType: nat)
    requires objectType < 31 || 32 <= objectType < 96
    ensures ObjectType(data) == Some((objectType, Total(TypeFields(objectType)))) <==>
            Spells(data, 0, TypeFields(objectType))
  {
    if objectType < 31 {
      SpellsOne(data, 0, Field(5, objectType));
    } else {
      SpellsTwo(data, 0, Field(5, 31), Field(6, objectType - 32));
      SpellsOne(data, 0, Field(5, 31));
      SpellsOne(data, 5, Field(6, objectType - 32));
    }
  }

  lemma ObjectTypeInRange(data: Bytes)
    requires ObjectType(data).Some?
    ensures var t := ObjectType(data).value; (t.0 < 31 || 32 <= t.0 < 96) && t.1 == Total(TypeFields(t.0))
  {
    ShortValues(data, 0, 5);
    if Value(data, 0, 5) == 31 {
      ShortValues(data, 5, 6);
      SpellsTwo(data, 0, Field(5, 31), Field(6, Value(data, 5, 6)));
    }
  }

  predicate ValidRate(rate: Rate) {
    match rate case Indexed(i) => i < |SAMPLE_RATES| case Explicit(r) => 1_000 <= r <= 192_000
  }

  function RateOf(rate: Rate): nat
    requires ValidRate(rate)
  {
    match rate case Indexed(i) => SAMPLE_RATES[i] case Explicit(r) => r
  }

  lemma WrittenRateIsRead(data: Bytes, offset: nat, rate: Rate)
    requires ValidRate(rate) && Spells(data, offset, RateFields(rate))
    ensures SampleRate(data, offset) == Some((RateOf(rate), offset + Total(RateFields(rate))))
  {
    match rate
    case Indexed(i) =>
      SpellsOne(data, offset, Field(4, i));
    case Explicit(r) =>
      SpellsTwo(data, offset, Field(4, 15), Field(24, r));
      SpellsOne(data, offset, Field(4, 15));
      SpellsOne(data, offset + 4, Field(24, r));
  }

  lemma ReadRateIsWritten(data: Bytes, offset: nat) returns (rate: Rate)
    requires SampleRate(data, offset).Some?
    ensures ValidRate(rate) && Spells(data, offset, RateFields(rate))
    ensures SampleRate(data, offset) == Some((RateOf(rate), offset + Total(RateFields(rate))))
  {
    var index := Value(data, offset, 4);
    if index == 15 {
      rate := Explicit(Value(data, offset + 4, 24));
      SpellsTwo(data, offset, Field(4, 15), Field(24, rate.rate));
      SpellsOne(data, offset, Field(4, 15));
      SpellsOne(data, offset + 4, Field(24, rate.rate));
    } else {
      rate := Indexed(index);
      SpellsOne(data, offset, Field(4, index));
    }
  }

  lemma LayoutFields(data: Bytes, l: Layout)
    requires ValidLayout(l)
    ensures var t, r := TypeFields(l.objectType), RateFields(l.rate);
            Spells(data, 0, FieldsOf(l)) <==>
              Spells(data, 0, t) && Spells(data, Total(t), r)
                  && Spells(data, Total(t) + Total(r), [Field(4, l.channelConfiguration)])
  {
    var t, r, c := TypeFields(l.objectType), RateFields(l.rate), [Field(4, l.channelConfiguration)];
    SpellsAppend(data, 0, t + r, c);
    SpellsAppend(data, 0, t, r);
    TotalAppend(t, r);
  }

  lemma {:induction false} TotalAppend(a: seq<Field>, b: seq<Field>)
    ensures Total(a + b) == Total(a) + Total(b)
    decreases |a|
  {
    if a == [] {
      assert a + b == b;
    } else {
      assert (a + b)[1..] == a[1..] + b;
      TotalAppend(a[1..], b);
    }
  }

  /** The three reads of the parser give the layout, whose fields end at t, r and r + 4. */
  predicate ReadsAs(data: Bytes, l: Layout, t: nat, r: nat)
    requires ValidLayout(l)
  {
    && ObjectType(data) == Some((l.objectType, t)) && SampleRate(data, t) == Some((RateOf(l.rate), r))
    && ReadBits(data, r, 4) == Some(l.channelConfiguration)
  }

  lemma ReadsAsMeaning(data: Bytes, l: Layout, t: nat, r: nat)
    requires ValidLayout(l) && ReadsAs(data, l, t, r)
    ensures ParseConfig(data) == Some(Meaning(l))
  {}

  lemma ChannelsRead(data: Bytes, offset: nat, c: nat)
    requires c < 16
    ensures Spells(data, offset, [Field(4, c)]) <==> ReadBits(data, offset, 4) == Some(c)
  {
    SpellsOne(data, offset, Field(4, c));
  }

  /** Every configuration that can be written is read back. */
  lemma WrittenConfigIsRead(data: Bytes, l: Layout)
    requires ValidLayout(l) && Spells(data, 0, FieldsOf(l))
    ensures ParseConfig(data) == Some(Meaning(l))
  {
    var t, r := Total(TypeFields(l.objectType)), Total(RateFields(l.rate));
    LayoutFields(data, l);
    ObjectTypeIff(data, l.objectType);
    WrittenRateIsRead(data, t, l.rate);
    ChannelsRead(data, t + r, l.channelConfiguration);
    ReadsAsMeaning(data, l, t, t + r);
  }

  /** What parses was read as some layout. */
  lemma ParsedIsReadAs(data: Bytes) returns (l: Layout, t: nat, r: nat)
    requires ParseConfig(data).Some?
    ensures ValidLayout(l) && ReadsAs(data, l, t, r)
    ensures t == Total(TypeFields(l.objectType)) && r == t + Total(RateFields(l.rate))
    ensures Spells(data, t, RateFields(l.rate))
  {
    ObjectTypeInRange(data);
    var (objectType, end) := ObjectType(data).value;
    var rate := ReadRateIsWritten(data, end);
    t, r := end, SampleRate(data, end).value.1;
    l := Layout(objectType, rate, ReadBits(data, r, 4).value);
  }

  /** Nothing else is accepted: what parses was written by some layout of that meaning. */
  lemma ReadConfigIsWritten(data: Bytes) returns (l: Layout)
    requires ParseConfig(data).Some?
    ensures ValidLayout(l) && Spells(data, 0, FieldsOf(l)) && ParseConfig(data) == Some(Meaning(l))
  {
    var t, r;
    l, t, r := ParsedIsReadAs(data);
    ReadsAsMeaning(data, l, t, r);
    ObjectTypeIff(data, l.objectType);
    ChannelsRead(data, r, l.channelConfiguration);
    LayoutFields(data, l);
  }

  // ---------------------------------------------------------------------------
  // Writing
  // ---------------------------------------------------------------------------

  type bit = x: nat | x < 2

  function BitsOf(value: nat, width: nat): (r: seq<bit>)
    ensures |r| == width
  {
    if width == 0 then [] else BitsOf(value / 2, width - 1) + [value % 2]
  }

  function AllBits(fields: seq<Field>): (r: seq<bit>)
    ensures |r| == Total(fields)
  {
    if fields == [] then [] else BitsOf(fields[0].value, fields[0].width) + AllBits(fields[1..])
  }

  function At(bits: seq<bit>, i: nat): bit { if i < |bits| then bits[i] else 0 }

  /** The first n bits from k on as a number. */
  function Prefix(bits: seq<bit>, k: nat, n: nat): nat {
    if n == 0 then 0 else 2 * Prefix(bits, k, n - 1) + At(bits, k + n - 1)
  }

  lemma {:induction false} PrefixBound(bits: seq<bit>, k: nat, n: nat)
    ensures Prefix(bits, k, n) < Pow2(n)
  {
    if n > 0 {
      PrefixBound(bits, k, n - 1);
    }
  }

  function ByteAt(bits: seq<bit>, k: nat): byte {
    PrefixBound(bits, k, 8);
    assert Pow2(8) == 256;
    Prefix(bits, k, 8) as byte
  }

  /** The bits in bytes, the last one filled with zeros. */
  function Pack(bits: seq<bit>): (r: Bytes)
    ensures |bits| <= 8 * |r| < |bits| + 8
    ensures forall k :: 0 <= k < |r| ==> r[k] == ByteAt(bits, 8 * k)
  {
    seq((|bits| + 7) / 8, k requires 0 <= k => ByteAt(bits, 8 * k))
  }

  lemma {:induction false} BitOfPrefix(bits: seq<bit>, k: nat, n: nat, i: nat)
    requires i < n <= 8
    ensures BitInByte(Prefix(bits, k, n), i + 8 - n) == At(bits, k + i)
    decreases n
  {
    if i < n - 1 {
      BitOfPrefix(bits, k, n - 1, i);
      assert Prefix(bits, k, n) / 2 == Prefix(bits, k, n - 1);
    }
  }

  lemma PackedBit(bits: seq<bit>, i: nat)
    requires i < |bits|
    ensures i < 8 * |Pack(bits)| && Bit(Pack(bits), i) == bits[i]
  {
    BitOfPrefix(bits, 8 * (i / 8), 8, i % 8);
  }

  predicate HasBits(data: Bytes, offset: nat, bits: seq<bit>) {
    offset + |bits| <= 8 * |data| && forall i :: 0 <= i < |bits| ==> Bit(data, offset + i) == bits[i]
  }

  /** Data whose bits from the offset on are those of a value spells the value. */
  lemma {:induction false} BitsSpellValue(data: Bytes, offset: nat, value: nat, width: nat)
    requires value < Pow2(width) && HasBits(data, offset, BitsOf(value, width))
    ensures Value(data, offset, width) == value
    decreases width
  {
    if width > 0 {
      var bits := BitsOf(value, width);
      assert bits[..width - 1] == BitsOf(value / 2, width - 1);
      assert HasBits(data, offset, bits[..width - 1]);
      BitsSpellValue(data, offset, value / 2, width - 1);
      assert Bit(data, offset + (width - 1)) == bits[width - 1];
    }
  }

  lemma HasBothHalves(data: Bytes, offset: nat, a: seq<bit>, b: seq<bit>)
    requires HasBits(data, offset, a + b)
    ensures HasBits(data, offset, a) && HasBits(data, offset + |a|, b)
  {
    assert forall i :: 0 <= i < |a| ==> (a + b)[i] == a[i];
    forall i | 0 <= i < |b|
      ensures Bit(data, offset + |a| + i) == b[i]
    {
      assert (a + b)[|a| + i] == b[i];
      assert Bit(data, offset + (|a| + i)) == b[i];
    }
  }

  /** Data whose bits are those of the fields spells the fields. */
  lemma {:induction false} BitsSpellFields(data: Bytes, offset: nat, fields: seq<Field>)
    requires HasBits(data, offset, AllBits(fields)) && forall f :: f in fields ==> f.value < Pow2(f.width)
    ensures Spells(data, offset, fields)
    decreases |fields|
  {
    if fields != [] {
      var f := fields[0];
      HasBothHalves(data, offset, BitsOf(f.value, f.width), AllBits(fields[1..]));
      BitsSpellValue(data, offset, f.value, f.width);
      BitsSpellFields(data, offset + f.width, fields[1..]);
    }
  }

  lemma PackedHasBits(bits: seq<bit>)
    ensures HasBits(Pack(bits), 0, bits)
  {
    forall i | 0 <= i < |bits|
      ensures Bit(Pack(bits), 0 + i) == bits[i]
    {
      PackedBit(bits, i);
    }
  }

  lemma FieldValuesFit(l: Layout)
    requires ValidLayout(l)
    ensures forall f :: f in FieldsOf(l) ==> f.value < Pow2(f.width)
  {
    assert Pow2(4) == 16 && Pow2(5) == 2 * Pow2(4) && Pow2(6) == 2 * Pow2(5);
    assert Pow2(10) == 1024 && Pow2(20) == 1024 * Pow2(10) && Pow2(24) == 16 * Pow2(20);
  }

  /** Writing a configuration into bytes and parsing the bytes gives it back. */
  lemma ConfigRoundTrip(l: Layout)
    requires ValidLayout(l)
    ensures ParseConfig(Pack(AllBits(FieldsOf(l)))) == Some(Meaning(l))
  {
    FieldValuesFit(l);
    var all := AllBits(FieldsOf(l));
    PackedHasBits(all);
    BitsSpellFields(Pack(all), 0, FieldsOf(l));
    WrittenConfigIsRead(Pack(all), l);
  }
}
