/** RIFF/WAVE files as internal/audio/wav.go probes them. */
module Wav {
  import opened Common
  import opened Endian
  import opened Durations

  datatype Chunk = Chunk(id: Bytes, start: nat, dataStart: nat, dataEnd: nat, end: nat)

  const RIFF: Bytes := [82, 73, 70, 70]
  const WAVE: Bytes := [87, 65, 86, 69]
  const FMT: Bytes := [102, 109, 116, 32]
  const DATA: Bytes := [100, 97, 116, 97]

  // ---------------------------------------------------------------------------
  // Chunks
  // ---------------------------------------------------------------------------

  /** The chunk at an offset, with its padding byte if its size is odd. */
  function ReadChunk(data: Bytes, offset: nat): (r: Option<Chunk>)
    requires offset < |data|
    ensures r.Some? ==> && r.value.start == offset && r.value.dataStart == offset + 8
                        && r.value.dataStart <= r.value.dataEnd <= r.value.end <= |data|
                        && r.value.end == r.value.dataEnd + (r.value.dataEnd - r.value.dataStart) % 2
  {
    if |data| - offset < 8 then None
    else
      var size := LittleUint32(data[offset + 4..offset + 8]);
      if offset + 8 + size + size % 2 > |data| then None
      else Some(Chunk(data[offset..offset + 4], offset, offset + 8, offset + 8 + size, offset + 8 + size + size % 2))
  }

  function Chunks(data: Bytes, offset: nat): Option<seq<Chunk>>
    requires offset <= |data|
    decreases |data| - offset
  {
    if offset == |data| then Some([])
    else match ReadChunk(data, offset)
      case None => None
      case Some(c) => Before(c, Chunks(data, c.end))
  }

  function Before(c: Chunk, rest: Option<seq<Chunk>>): Option<seq<Chunk>> {
    if rest.Some? then Some([c] + rest.value) else None
  }

  /** Chunks with their padding cover the range, each starting where the last ended. */
  predicate Tiles(chunks: seq<Chunk>, start: nat, end: nat)
    decreases |chunks|
  {
    if chunks == [] then start == end
    else
      var c := chunks[0];
      && c.start == start && c.dataStart == start + 8 <= c.dataEnd && c.end == c.dataEnd + (c.dataEnd - c.dataStart) % 2
      && Tiles(chunks[1..], c.end, end)
  }

  lemma {:induction false} ChunksTile(data: Bytes, offset: nat)
    requires offset <= |data| && Chunks(data, offset).Some?
    ensures Tiles(Chunks(data, offset).value, offset, |data|)
    decreases |data| - offset
  {
    if offset < |data| {
      var c := ReadChunk(data, offset).value;
      ChunksTile(data, c.end);
      assert Chunks(data, offset).value[1..] == Chunks(data, c.end).value;
    }
  }

  function OfId(chunks: seq<Chunk>, id: Bytes): seq<Chunk> {
    if chunks == [] then [] else (if chunks[0].id == id then [chunks[0]] else []) + OfId(chunks[1..], id)
  }

  // ---------------------------------------------------------------------------
  // The format
  // ---------------------------------------------------------------------------

  datatype Format = Format(codec: string, channels: nat, sampleRate: nat, byteRate: nat, blockAlign: nat)

  /** wavCodec, with the bits per sample it allows. */
  function Codec(tag: nat, bits: nat): Option<string> {
    if tag == 1 then
      if bits == 8 then Some("pcm_u8") else if bits == 16 then Some("pcm_s16le")
      else if bits == 24 then Some("pcm_s24le") else if bits == 32 then Some("pcm_s32le") else None
    else if tag == 3 then
      if bits == 32 then Some("pcm_f32le") else if bits == 64 then Some("pcm_f64le") else None
    else None
  }

  /** The products the source checks against 16 and 32 bits never exceed them. */
  lemma FormatProductsFit(channels: nat, bits: nat, sampleRate: nat)
    requires channels <= 64 && bits <= 64 && sampleRate <= 768_000
    ensures channels * bits / 8 <= 512 && sampleRate * (channels * bits / 8) <= MAX_UINT32
  {
    assert channels * bits <= 64 * bits <= 4096;
    var align := channels * bits / 8;
    assert sampleRate * align <= 768_000 * align <= 768_000 * 512;
  }

  /** The fields of a format chunk. */
  datatype Fields = Fields(
    tag: uint16, channels: uint16, sampleRate: uint32, byteRate: uint32, blockAlign: uint16, bits: uint16)

  function FieldsOf(b: Bytes): Fields
    requires |b| == 16
  {
    Fields(LittleUint16(b[0..2]), LittleUint16(b[2..4]), LittleUint32(b[4..8]), LittleUint32(b[8..12]),
           LittleUint16(b[12..14]), LittleUint16(b[14..16]))
  }

  /** A supported codec within the limits, with the block size and byte rate it implies. */
  predicate Consistent(f: Fields) {
    && 1 <= f.channels <= 64 && 1_000 <= f.sampleRate <= 768_000 && Codec(f.tag, f.bits).Some?
    && f.blockAlign == f.channels * f.bits / 8 && f.byteRate == f.sampleRate * f.blockAlign
  }

  function Stated(f: Fields): Format
    requires Consistent(f)
  {
    Format(Codec(f.tag, f.bits).value, f.channels, f.sampleRate, f.byteRate, f.blockAlign)
  }

  /** parseWAVFormat on the first sixteen bytes of the chunk. It accepts exactly the consistent
      formats: its guards against 16-bit and 32-bit overflow of the two products refuse nothing. */
  function ParseFormat(b: Bytes): (r: Option<Format>)
    requires |b| == 16
    ensures r.Some? <==> Consistent(FieldsOf(b))
    ensures r.Some? ==> r.value == Stated(FieldsOf(b))
    ensures r.Some? ==> 1 <= r.value.channels <= 64 && 1_000 <= r.value.sampleRate <= 768_000
                        && 1 <= r.value.blockAlign && r.value.byteRate == r.value.sampleRate * r.value.blockAlign
  {
    var f := FieldsOf(b);
    if f.channels == 0 || f.channels > 64 || f.sampleRate < 1_000 || f.sampleRate > 768_000 then None
    else if Codec(f.tag, f.bits).None? then None
    else
      FormatProductsFit(f.channels, f.bits, f.sampleRate);
      var expectedBlockAlign := f.channels * f.bits / 8;
      if expectedBlockAlign == 0 || expectedBlockAlign > MAX_UINT16 || f.blockAlign != expectedBlockAlign then None
      else
        var expectedByteRate := f.sampleRate * expectedBlockAlign;
        if expectedByteRate > MAX_UINT32 || f.byteRate != expectedByteRate then None
        else Some(Format(Codec(f.tag, f.bits).value, f.channels, f.sampleRate, f.byteRate, f.blockAlign))
  }

  // ---------------------------------------------------------------------------
  // The probe
  // ---------------------------------------------------------------------------

  datatype Metadata = Metadata(
    codec: string, sampleRate: nat, channels: nat, bitrate: nat, durationMs: int, dataBytes: nat)

  predicate ValidHeader(data: Bytes) {
    && |data| >= 12 && data[0..4] == RIFF && data[8..12] == WAVE
    && LittleUint32(data[4..8]) + 8 == |data|
  }

  /** In a file with a valid header the ends of a chunk fit 64 bits wherever it starts, so the two
      guards of the loop against their overflow never fire. */
  lemma ChunkEndsFit(data: Bytes, offset: nat)
    requires ValidHeader(data) && offset + 8 <= |data|
    ensures var size := LittleUint32(data[offset + 4..offset + 8]);
            && WrapUint64(offset + 8 + size) == offset + 8 + size
            && WrapUint64(offset + 8 + size + size % 2) == offset + 8 + size + size % 2
  {}

  function FormatOf(data: Bytes, c: Chunk): Option<Format>
    requires c.dataStart <= c.dataEnd <= |data|
  {
    if c.dataEnd - c.dataStart < 16 then None else ParseFormat(data[c.dataStart..c.dataStart + 16])
  }

  /** An accepted file: chunks that tile it after the header, exactly one format chunk with a good
      format, exactly one data chunk, and that of whole frames. */
  ghost predicate Accepted(data: Bytes, f: Format, d: Chunk) {
    && ValidHeader(data) && Chunks(data, 12).Some? && Fits(data, Chunks(data, 12).value, f, d)
  }

  ghost predicate Fits(data: Bytes, chunks: seq<Chunk>, f: Format, d: Chunk) {
    && OfId(chunks, DATA) == [d] && d.dataStart <= d.dataEnd <= |data|
    && |OfId(chunks, FMT)| == 1 && IsFormat(data, OfId(chunks, FMT)[0], f)
    && f.blockAlign >= 1 && (d.dataEnd - d.dataStart) % f.blockAlign == 0
  }

  ghost predicate IsFormat(data: Bytes, c: Chunk, f: Format) {
    c.dataStart <= c.dataEnd <= |data| && FormatOf(data, c) == Some(f)
  }

  /** What the loop has found: nothing or the one chunk of the id. */
  ghost predicate Found(all: Option<seq<Chunk>>, rest: Option<seq<Chunk>>, id: Bytes, found: Option<Chunk>) {
    && (all.Some? <==> rest.Some?)
    && (all.Some? ==> OfId(all.value, id) == (if found.Some? then [found.value] else []) + OfId(rest.value, id))
  }

  lemma OfIdFirst(c: Chunk, rest: seq<Chunk>, id: Bytes)
    ensures OfId([c] + rest, id) == (if c.id == id then [c] else []) + OfId(rest, id)
  {
    assert ([c] + rest)[1..] == rest;
  }

  lemma FoundNext(all: Option<seq<Chunk>>, c: Chunk, rest: Option<seq<Chunk>>, id: Bytes, found: Option<Chunk>)
    requires Found(all, Before(c, rest), id, found)
    ensures c.id != id ==> Found(all, rest, id, found)
    ensures c.id == id && found.None? ==>
              Found(all, rest, id, Some(c)) && (all.Some? ==> OfId(all.value, id) != [] && OfId(all.value, id)[0] == c)
    ensures c.id == id && found.Some? && all.Some? ==> |OfId(all.value, id)| >= 2
  {
    if rest.Some? {
      OfIdFirst(c, rest.value, id);
    }
  }

  lemma FoundAtStart(data: Bytes, id: Bytes)
    requires |data| >= 12
    ensures Found(Chunks(data, 12), Chunks(data, 12), id, None)
  {}

  function Duration(f: Format, bytes: nat): int
    requires f.blockAlign >= 1 && f.sampleRate >= 1
  {
    var frames := bytes / f.blockAlign;
    frames / f.sampleRate * 1000 + frames % f.sampleRate * 1000 / f.sampleRate
  }

  lemma ExactDuration(f: Format, bytes: nat)
    requires f.sampleRate >= 1 && f.blockAlign >= 1 && bytes % f.blockAlign == 0
    requires f.byteRate == f.sampleRate * f.blockAlign
    ensures f.byteRate > 0 && Duration(f, bytes) == bytes * 1000 / f.byteRate
  {
    FramesGiveExactDuration(bytes, f.blockAlign, f.sampleRate);
  }

  /** The chunk loop of ProbeWAV. */
  method Scan(data: Bytes) returns (r: Option<(Format, Chunk)>)
    requires ValidHeader(data)
    ensures r.Some? ==> var all := Chunks(data, 12);
              && all.Some? && |OfId(all.value, FMT)| == 1 && IsFormat(data, OfId(all.value, FMT)[0], r.value.0)
              && OfId(all.value, DATA) == [r.value.1] && r.value.1.dataStart <= r.value.1.dataEnd <= |data|
    ensures r.None? ==> forall f, d :: !Accepted(data, f, d)
  {
    ghost var all := Chunks(data, 12);
    var format: Option<Format>, fmtChunk: Option<Chunk>, dataChunk: Option<Chunk> := None, None, None;
    FoundAtStart(data, FMT);
    FoundAtStart(data, DATA);
    var offset: nat := 12;
    while offset < |data|
      invariant 12 <= offset <= |data|
      invariant Found(all, Chunks(data, offset), FMT, fmtChunk) && Found(all, Chunks(data, offset), DATA, dataChunk)
      invariant (format.Some? <==> fmtChunk.Some?) && (format.Some? ==> IsFormat(data, fmtChunk.value, format.value))
      invariant dataChunk.Some? ==> dataChunk.value.dataStart <= dataChunk.value.dataEnd <= |data|
      decreases |data| - offset
    {
      var c := ReadChunk(data, offset);
      if c.None? {
        return None;
      }
      FoundNext(all, c.value, Chunks(data, c.value.end), FMT, fmtChunk);
      FoundNext(all, c.value, Chunks(data, c.value.end), DATA, dataChunk);
      if c.value.id == FMT {
        if fmtChunk.Some? {
          return None;
        }
        format := FormatOf(data, c.value);
        if format.None? {
          return None;
        }
        fmtChunk := c;
      } else if c.value.id == DATA {
        if dataChunk.Some? {
          return None;
        }
        dataChunk := c;
      }
      offset := c.value.end;
    }
    if format.None? || dataChunk.None? {
      return None;
    }
    return Some((format.value, dataChunk.value));
  }

  /** ProbeWAV: it accepts exactly the accepted files, and the duration it reports is the exact
      floor of bytes over byte rate in milliseconds. */
  method Probe(data: Bytes) returns (r: Option<Metadata>)
    ensures r.None? ==> forall f, d :: !Accepted(data, f, d)
    ensures r.Some? ==> exists f, d :: Accepted(data, f, d) && Describes(r.value, f, d)
  {
    if !ValidHeader(data) {
      return None;
    }
    var found := Scan(data);
    if found.None? {
      return None;
    }
    var f, d := found.value.0, found.value.1;
    var bytes := d.dataEnd - d.dataStart;
    if bytes % f.blockAlign != 0 {
      return None;
    }
    r := Some(Metadata(f.codec, f.sampleRate, f.channels, f.byteRate * 8, Duration(f, bytes), bytes));
    ExactDuration(f, bytes);
    assert Accepted(data, f, d) && Describes(r.value, f, d);
  }

  ghost predicate Describes(m: Metadata, f: Format, d: Chunk) {
    && m.codec == f.codec && m.sampleRate == f.sampleRate && m.channels == f.channels && m.bitrate == 8 * f.byteRate
    && m.dataBytes == d.dataEnd - d.dataStart && f.byteRate > 0 && m.durationMs == m.dataBytes * 1000 / f.byteRate
  }
}
