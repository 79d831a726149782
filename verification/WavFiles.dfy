/** RIFF/WAVE files as they are written: what internal/audio/wav.go must accept, and why it accepts
    nothing else. */
module WavFiles {
  import opened Common
  import opened Endian
  import opened Wav

  /** A chunk to write; the padding byte is written after a body of odd length. */
  datatype Part = Part(id: Bytes, body: Bytes, pad: byte)

  predicate ValidPart(p: Part) { |p.id| == 4 && |p.body| <= MAX_UINT32 }

  predicate ValidParts(parts: seq<Part>) { forall p :: p in parts ==> ValidPart(p) }

  function Uint16Bytes(v: uint16): (b: Bytes)
    ensures |b| == 2
  {
    Powers();
    PutLittleEndian(v, 2)
  }

  function Uint32Bytes(v: uint32): (b: Bytes)
    ensures |b| == 4
  {
    Powers();
    PutLittleEndian(v, 4)
  }

  lemma IntegersReadBack(v: uint16, w: uint32)
    ensures LittleUint16(Uint16Bytes(v)) == v && LittleUint32(Uint32Bytes(w)) == w
  {
    Powers();
    PutLittleEndianRoundTrip(v, 2);
    PutLittleEndianRoundTrip(w, 4);
  }

  function Written(p: Part): (b: Bytes)
    requires ValidPart(p)
    ensures |b| == 8 + |p.body| + |p.body| % 2
  {
    p.id + Uint32Bytes(|p.body|) + p.body + (if |p.body| % 2 == 1 then [p.pad] else [])
  }

  function AllWritten(parts: seq<Part>): Bytes
    requires ValidParts(parts)
  {
    if parts == [] then [] else Written(parts[0]) + AllWritten(parts[1..])
  }

  /** The file of the chunks, which a 32-bit size can describe. */
  predicate ValidFile(parts: seq<Part>) { ValidParts(parts) && 4 + |AllWritten(parts)| <= MAX_UINT32 }

  function File(parts: seq<Part>): Bytes
    requires ValidFile(parts)
  {
    RIFF + Uint32Bytes(4 + |AllWritten(parts)|) + WAVE + AllWritten(parts)
  }

  // ---------------------------------------------------------------------------
  // Reading what was written
  // ---------------------------------------------------------------------------

  /** The chunk is where the part was written. */
  predicate Holds(data: Bytes, c: Chunk, p: Part) {
    c.id == p.id && c.dataStart <= c.dataEnd <= |data| && data[c.dataStart..c.dataEnd] == p.body
  }

  lemma SplitSlice(data: Bytes, a: nat, b: nat, c: nat)
    requires a <= b <= c <= |data|
    ensures data[a..c] == data[a..b] + data[b..c]
  {
    SliceOfSlice(data, a, c, 0, b - a);
    SliceOfSlice(data, a, c, b - a, c - a);
    var s := data[a..c];
    assert s == s[0..b - a] + s[b - a..c - a];
  }

  lemma WrittenIsRead(data: Bytes, offset: nat, p: Part)
    requires ValidPart(p) && offset + |Written(p)| <= |data|
    requires data[offset..offset + |Written(p)|] == Written(p)
    ensures ReadChunk(data, offset).Some? && ReadChunk(data, offset).value.end == offset + |Written(p)|
    ensures Holds(data, ReadChunk(data, offset).value, p)
  {
    var w := Written(p);
    SliceOfSlice(data, offset, offset + |w|, 0, 4);
    SliceOfSlice(data, offset, offset + |w|, 4, 8);
    SliceOfSlice(data, offset, offset + |w|, 8, 8 + |p.body|);
    assert w[0..4] == p.id && w[4..8] == Uint32Bytes(|p.body|) && w[8..8 + |p.body|] == p.body;
    IntegersReadBack(0, |p.body|);
  }

  predicate AllHold(data: Bytes, chunks: seq<Chunk>, parts: seq<Part>) {
    |chunks| == |parts| && forall i :: 0 <= i < |parts| ==> Holds(data, chunks[i], parts[i])
  }

  lemma {:induction false} WrittenAreRead(data: Bytes, offset: nat, parts: seq<Part>)
    requires ValidParts(parts) && offset <= |data| && data[offset..] == AllWritten(parts)
    ensures Chunks(data, offset).Some? && AllHold(data, Chunks(data, offset).value, parts)
    decreases |parts|
  {
    if parts != [] {
      var c := FirstIsRead(data, offset, parts);
      WrittenAreRead(data, c.end, parts[1..]);
      OneMoreHolds(data, c, Chunks(data, c.end).value, parts);
    }
  }

  lemma FirstIsRead(data: Bytes, offset: nat, parts: seq<Part>) returns (c: Chunk)
    requires parts != [] && ValidParts(parts) && offset <= |data| && data[offset..] == AllWritten(parts)
    ensures offset < c.end <= |data| && ReadChunk(data, offset) == Some(c)
    ensures Holds(data, c, parts[0]) && data[c.end..] == AllWritten(parts[1..])
  {
    FirstAndRest(data, offset, Written(parts[0]), AllWritten(parts[1..]));
    WrittenIsRead(data, offset, parts[0]);
    c := ReadChunk(data, offset).value;
  }

  lemma OneMoreHolds(data: Bytes, c: Chunk, chunks: seq<Chunk>, parts: seq<Part>)
    requires parts != [] && Holds(data, c, parts[0]) && AllHold(data, chunks, parts[1..])
    ensures AllHold(data, [c] + chunks, parts)
  {}

  lemma HeaderIsWritten(parts: seq<Part>)
    requires ValidFile(parts)
    ensures ValidHeader(File(parts)) && File(parts)[12..] == AllWritten(parts)
  {
    var data := File(parts);
    assert data[4..8] == Uint32Bytes(4 + |AllWritten(parts)|);
    IntegersReadBack(0, 4 + |AllWritten(parts)|);
  }

  function FieldBytes(f: Fields): (b: Bytes)
    ensures |b| == 16
  {
    Uint16Bytes(f.tag) + Uint16Bytes(f.channels) + Uint32Bytes(f.sampleRate) + Uint32Bytes(f.byteRate)
    + Uint16Bytes(f.blockAlign) + Uint16Bytes(f.bits)
  }

  lemma FieldsReadBack(f: Fields)
    ensures FieldsOf(FieldBytes(f)) == f
  {
    var b := FieldBytes(f);
    assert b[0..2] == Uint16Bytes(f.tag) && b[2..4] == Uint16Bytes(f.channels);
    assert b[4..8] == Uint32Bytes(f.sampleRate) && b[8..12] == Uint32Bytes(f.byteRate);
    assert b[12..14] == Uint16Bytes(f.blockAlign) && b[14..16] == Uint16Bytes(f.bits);
    IntegersReadBack(f.tag, f.sampleRate);
    IntegersReadBack(f.channels, f.byteRate);
    IntegersReadBack(f.blockAlign, 0);
    IntegersReadBack(f.bits, 0);
  }

  lemma {:induction false} NoneOfId(chunks: seq<Chunk>, id: Bytes)
    requires forall k :: 0 <= k < |chunks| ==> chunks[k].id != id
    ensures OfId(chunks, id) == []
  {
    if chunks != [] {
      NoneOfId(chunks[1..], id);
    }
  }

  lemma {:induction false} OneOfId(chunks: seq<Chunk>, id: Bytes, i: nat)
    requires i < |chunks| && forall k :: 0 <= k < |chunks| ==> (chunks[k].id == id <==> k == i)
    ensures OfId(chunks, id) == [chunks[i]]
  {
    if i == 0 {
      NoneOfId(chunks[1..], id);
    } else {
      OneOfId(chunks[1..], id, i - 1);
    }
  }

  /** Exactly the part at index i has the identifier. */
  predicate Only(parts: seq<Part>, id: Bytes, i: nat) {
    i < |parts| && forall k :: 0 <= k < |parts| ==> (parts[k].id == id <==> k == i)
  }

  /** The file has one chunk of consistent fields, anything after them included, and one of whole
      frames; the other chunks are whatever they are. */
  predicate Sound(parts: seq<Part>, i: nat, j: nat, f: Fields) {
    && ValidFile(parts) && Only(parts, FMT, i) && Only(parts, DATA, j)
    && Consistent(f) && FieldBytes(f) <= parts[i].body && |parts[j].body| % f.blockAlign == 0
  }

  /** Every such file is accepted, wherever its chunks stand and whatever stands between them, and
      is described by the fields written into it. */
  lemma WrittenFileIsAccepted(parts: seq<Part>, i: nat, j: nat, f: Fields) returns (d: Chunk)
    requires Sound(parts, i, j, f)
    ensures Accepted(File(parts), Stated(f), d)
    ensures Holds(File(parts), d, parts[j])
  {
    var data := File(parts);
    HeaderIsWritten(parts);
    WrittenAreRead(data, 12, parts);
    d := Chunks(data, 12).value[j];
    WrittenChunksFit(data, Chunks(data, 12).value, parts, i, j, f);
  }

  lemma WrittenChunksFit(data: Bytes, chunks: seq<Chunk>, parts: seq<Part>, i: nat, j: nat, f: Fields)
    requires Sound(parts, i, j, f) && AllHold(data, chunks, parts)
    ensures Fits(data, chunks, Stated(f), chunks[j])
  {
    OneOfId(chunks, FMT, i);
    OneOfId(chunks, DATA, j);
    FormatIsRead(data, chunks[i], parts[i], f);
  }

  lemma FormatIsRead(data: Bytes, c: Chunk, p: Part, f: Fields)
    requires Holds(data, c, p) && Consistent(f) && FieldBytes(f) <= p.body
    ensures IsFormat(data, c, Stated(f)) && f.blockAlign >= 1
  {
    SliceOfSlice(data, c.dataStart, c.dataEnd, 0, 16);
    assert data[c.dataStart..c.dataStart + 16] == FieldBytes(f);
    FieldsReadBack(f);
  }

  // ---------------------------------------------------------------------------
  // Nothing else is accepted
  // ---------------------------------------------------------------------------

  lemma SizeIsWritten(b: Bytes)
    requires |b| == 4
    ensures Uint32Bytes(LittleUint32(b)) == b
  {
    LittleEndianIsPut(b);
  }

  lemma FourParts(data: Bytes, a: nat, b: nat, c: nat, d: nat, e: nat)
    requires a <= b <= c <= d <= e <= |data|
    ensures data[a..e] == data[a..b] + data[b..c] + data[c..d] + data[d..e]
  {
    SplitSlice(data, a, d, e);
    SplitSlice(data, a, c, d);
    SplitSlice(data, a, b, c);
  }

  lemma ReadIsWritten(data: Bytes, offset: nat) returns (p: Part)
    requires offset < |data| && ReadChunk(data, offset).Some?
    ensures ValidPart(p) && offset + |Written(p)| == ReadChunk(data, offset).value.end
    ensures data[offset..offset + |Written(p)|] == Written(p)
  {
    var c := ReadChunk(data, offset).value;
    var size := LittleUint32(data[offset + 4..offset + 8]);
    SizeIsWritten(data[offset + 4..offset + 8]);
    p := Part(data[offset..offset + 4], data[offset + 8..offset + 8 + size],
              if size % 2 == 1 then data[offset + 8 + size] else 0);
    FourParts(data, offset, offset + 4, offset + 8, offset + 8 + size, c.end);
    assert data[offset + 8 + size..c.end] == if size % 2 == 1 then [p.pad] else [];
  }

  lemma {:induction false} ReadAreWritten(data: Bytes, offset: nat) returns (parts: seq<Part>)
    requires offset <= |data| && Chunks(data, offset).Some?
    ensures ValidParts(parts) && AllWritten(parts) == data[offset..]
    decreases |data| - offset
  {
    if offset == |data| {
      return [];
    }
    var p := ReadIsWritten(data, offset);
    var end := ReadChunk(data, offset).value.end;
    var rest := ReadAreWritten(data, end);
    parts := [p] + rest;
    assert parts[1..] == rest;
    assert data[offset..] == data[offset..end] + data[end..];
  }

  lemma FieldsAreWritten(b: Bytes)
    requires |b| == 16
    ensures FieldBytes(FieldsOf(b)) == b
  {
    LittleEndianIsPut(b[0..2]);
    LittleEndianIsPut(b[2..4]);
    LittleEndianIsPut(b[4..8]);
    LittleEndianIsPut(b[8..12]);
    LittleEndianIsPut(b[12..14]);
    LittleEndianIsPut(b[14..16]);
    assert b == b[0..2] + b[2..4] + b[4..8] + b[8..12] + b[12..14] + b[14..16];
  }

  /** Conversely an accepted file is the writing of chunks of which one is the format it is read
      with and one the data. */
  lemma AcceptedFileIsWritten(data: Bytes, f: Format, d: Chunk)
    returns (parts: seq<Part>, i: nat, j: nat, fields: Fields)
    requires Accepted(data, f, d)
    ensures Sound(parts, i, j, fields) && data == File(parts) && Holds(data, d, parts[j])
    ensures f == Stated(fields)
  {
    parts := ReadFileIsWritten(data);
    HeaderIsWritten(parts);
    WrittenAreRead(data, 12, parts);
    var chunks := Chunks(data, 12).value;
    j := IndexOfId(chunks, DATA);
    i := IndexOfId(chunks, FMT);
    fields := ReadFormatIsWritten(data, chunks[i], f);
  }

  lemma ReadFileIsWritten(data: Bytes) returns (parts: seq<Part>)
    requires ValidHeader(data) && Chunks(data, 12).Some?
    ensures ValidFile(parts) && data == File(parts)
  {
    parts := ReadAreWritten(data, 12);
    SizeIsWritten(data[4..8]);
    assert LittleUint32(data[4..8]) == 4 + |AllWritten(parts)|;
    HeaderIsRead(data, AllWritten(parts));
  }

  lemma HeaderIsRead(data: Bytes, rest: Bytes)
    requires |data| >= 12 && data[12..] == rest
    ensures data == data[0..4] + data[4..8] + data[8..12] + rest
  {
    FourParts(data, 0, 4, 8, 12, |data|);
  }

  lemma ReadFormatIsWritten(data: Bytes, c: Chunk, f: Format) returns (fields: Fields)
    requires IsFormat(data, c, f)
    ensures Consistent(fields) && FieldBytes(fields) <= data[c.dataStart..c.dataEnd]
    ensures f == Stated(fields)
  {
    fields := FieldsOf(data[c.dataStart..c.dataStart + 16]);
    FieldsAreWritten(data[c.dataStart..c.dataStart + 16]);
    SliceOfSlice(data, c.dataStart, c.dataEnd, 0, 16);
  }

  lemma {:induction false} IndexOfId(chunks: seq<Chunk>, id: Bytes) returns (i: nat)
    requires |OfId(chunks, id)| == 1
    ensures i < |chunks| && OfId(chunks, id) == [chunks[i]]
    ensures forall k :: 0 <= k < |chunks| ==> (chunks[k].id == id <==> k == i)
  {
    if chunks[0].id == id {
      OfIdIsEmpty(chunks[1..], id);
      return 0;
    }
    var k := IndexOfId(chunks[1..], id);
    i := k + 1;
  }

  lemma {:induction false} OfIdIsEmpty(chunks: seq<Chunk>, id: Bytes)
    requires OfId(chunks, id) == []
    ensures forall k :: 0 <= k < |chunks| ==> chunks[k].id != id
  {
    if chunks != [] {
      OfIdIsEmpty(chunks[1..], id);
    }
  }

  // ---------------------------------------------------------------------------
  // Codecs
  // ---------------------------------------------------------------------------

  /** The digits of the sample widths. */
  const WIDTHS: map<nat, string> := map[8 := "8", 16 := "16", 24 := "24", 32 := "32", 64 := "64"]

  /** A codec's name tells how its samples are coded: floating point under tag 3, integers under tag 1,
      unsigned in one byte only, then the width, and the byte order where there is one. */
  lemma CodecNamesTheSamples(tag: nat, bits: nat)
    ensures Codec(tag, bits).Some? <==> (tag == 1 && bits in {8, 16, 24, 32}) || (tag == 3 && bits in {32, 64})
    ensures Codec(tag, bits).Some? ==>
              && bits % 8 == 0 && bits in WIDTHS
              && Codec(tag, bits).value == "pcm_" + (if tag == 3 then "f" else if bits == 8 then "u" else "s")
                                           + WIDTHS[bits] + (if bits == 8 then "" else "le")
  {
    if Codec(tag, bits).Some? {
      assert WIDTHS[bits] == if bits == 8 then "8" else if bits == 16 then "16" else if bits == 24 then "24"
                             else if bits == 32 then "32" else "64";
    }
  }
}
