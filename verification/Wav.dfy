/**
 EncodeWAV (internal/radio/recorder.go) against an independent reader for the RIFF chunk layout of the section
 'Waveform Audio File Format (WAVE)' of Multimedia Programming Interface and Data Specifications 1.0.
 */
module Wav {
  import opened Wrappers
  import opened Bytes

  const RIFF: seq<byte> := [0x52, 0x49, 0x46, 0x46]
  const WAVE: seq<byte> := [0x57, 0x41, 0x56, 0x45]
  const FMT: seq<byte> := [0x66, 0x6D, 0x74, 0x20]
  const DATA: seq<byte> := [0x64, 0x61, 0x74, 0x61]

  /** uint32 products and sums wrap, as in Go. */
  function ByteRate(sampleRate: uint32, channels: uint16, bits: uint16): uint32 {
    sampleRate * channels % 0x1_0000_0000 * bits % 0x1_0000_0000 / 8
  }

  function BlockAlign(channels: uint16, bits: uint16): uint16 {
    channels * bits % 0x1_0000 / 8
  }

  /** The format EncodeWAV derives from its arguments. */
  function FormatOf(sampleRate: uint32, channels: uint16, bits: uint16): Format {
    Format(sampleRate, channels, bits, ByteRate(sampleRate, channels, bits), BlockAlign(channels, bits))
  }

  function FormatBody(f: Format): (b: seq<byte>)
    ensures |b| == 16
  {
    LittleEndian16(1) + LittleEndian16(f.channels) + LittleEndian32(f.sampleRate) +
    LittleEndian32(f.byteRate) + LittleEndian16(f.blockAlign) + LittleEndian16(f.bits)
  }

  /** The file's layout; both size fields are uint32 and wrap. */
  function WavFile(f: Format, pcm: seq<byte>): (b: seq<byte>)
    ensures |b| == 44 + |pcm|
  {
    RIFF + LittleEndian32(ChunkSize(|pcm|)) + WAVE +
    (FMT + LittleEndian32(16) + FormatBody(f)) +
    (DATA + LittleEndian32(DataSize(|pcm|)) + pcm)
  }

  function DataSize(length: nat): uint32 {
    length % 0x1_0000_0000
  }

  function ChunkSize(length: nat): uint32 {
    (36 + DataSize(length)) % 0x1_0000_0000
  }

  /** The writer: one growing buffer, field after field. */
  method EncodeWAV(sampleRate: uint32, channels: uint16, bitsPerSample: uint16, pcm: seq<byte>) returns (buf: seq<byte>)
    ensures |buf| == 44 + |pcm|
    ensures buf == WavFile(FormatOf(sampleRate, channels, bitsPerSample), pcm)
    ensures Readable(pcm) ==> ReadWav(buf) == Some(Sound(FormatOf(sampleRate, channels, bitsPerSample), pcm))
  {
    var dataSize := DataSize(|pcm|);
    var chunkSize := ChunkSize(|pcm|);
    var byteRate := ByteRate(sampleRate, channels, bitsPerSample);
    var blockAlign := BlockAlign(channels, bitsPerSample);
    ghost var format := FormatOf(sampleRate, channels, bitsPerSample);
    buf := [];
    buf := buf + RIFF;
    buf := buf + LittleEndian32(chunkSize);
    buf := buf + WAVE;
    ghost var riff := buf;
    buf := buf + FMT;
    buf := buf + LittleEndian32(16);
    buf := buf + LittleEndian16(1);
    buf := buf + LittleEndian16(channels);
    buf := buf + LittleEndian32(sampleRate);
    buf := buf + LittleEndian32(byteRate);
    buf := buf + LittleEndian16(blockAlign);
    buf := buf + LittleEndian16(bitsPerSample);
    assert buf == riff + (FMT + LittleEndian32(16) + FormatBody(format));
    ghost var header := buf;
    buf := buf + DATA;
    buf := buf + LittleEndian32(dataSize);
    buf := buf + pcm;
    assert buf == header + (DATA + LittleEndian32(dataSize) + pcm);
    WavRoundTrip(format, pcm);
  }

  datatype Format = Format(sampleRate: uint32, channels: uint16, bits: uint16, byteRate: uint32, blockAlign: uint16)
  datatype Sound = Sound(format: Format, pcm: seq<byte>)

  /** A strict reader: the RIFF size must cover the file, chunks are padded to even length, PCM only. */
  function ReadWav(b: seq<byte>): Option<Sound> {
    if |b| < 12 || b[..4] != RIFF || b[8..12] != WAVE || FromLittleEndian32(b[4..8]) != |b| - 8 then None
    else ReadChunks(b[12..], None)
  }

  function ReadChunks(b: seq<byte>, format: Option<Format>): Option<Sound> {
    if |b| < 8 then None
    else
      var size := FromLittleEndian32(b[4..8]);
      var padded := size + size % 2;
      if 8 + padded > |b| then None
      else
        var body := b[8..8 + size];
        var rest := b[8 + padded..];
        if b[..4] == FMT then
          var f := ReadFormat(body);
          if f.None? then None else ReadChunks(rest, f)
        else if b[..4] == DATA then
          if format.None? then None else Some(Sound(format.value, body))
        else ReadChunks(rest, format)
  }

  function ReadFormat(b: seq<byte>): Option<Format> {
    if |b| < 16 || FromLittleEndian16(b[..2]) != 1 then None
    else Some(Format(FromLittleEndian32(b[4..8]), FromLittleEndian16(b[2..4]), FromLittleEndian16(b[14..16]),
                     FromLittleEndian32(b[8..12]), FromLittleEndian16(b[12..14])))
  }

  /** What the caller must check: an even payload whose RIFF size does not wrap. */
  predicate Readable(pcm: seq<byte>) {
    |pcm| % 2 == 0 && |pcm| + 36 < 0x1_0000_0000
  }

  lemma FormatRoundTrip(f: Format)
    ensures ReadFormat(FormatBody(f)) == Some(f)
  {
  }

  /** Reading a chunk header at the front of `b`. */
  lemma ChunkHeader(id: seq<byte>, n: uint32, tail: seq<byte>)
    requires |id| == 4
    ensures var b := id + LittleEndian32(n) + tail;
            b[..4] == id && FromLittleEndian32(b[4..8]) == n && b[8..] == tail
  {
  }

  /** The data chunk alone: an odd payload lacks its pad byte and is refused. */
  lemma DataChunk(format: Format, pcm: seq<byte>)
    requires |pcm| < 0x1_0000_0000
    ensures ReadChunks(DATA + LittleEndian32(|pcm|) + pcm, Some(format)) ==
            if |pcm| % 2 == 0 then Some(Sound(format, pcm)) else None
  {
    var b := DATA + LittleEndian32(|pcm|) + pcm;
    ChunkHeader(DATA, |pcm|, pcm);
    assert b[8..8 + |pcm|] == pcm;
  }

  /** The RIFF header: only the size field decides whether the chunks are read. */
  lemma RiffHeader(n: uint32, chunks: seq<byte>)
    ensures ReadWav(RIFF + LittleEndian32(n) + (WAVE + chunks)) ==
            if n == 4 + |chunks| then ReadChunks(chunks, None) else None
  {
    var b := RIFF + LittleEndian32(n) + (WAVE + chunks);
    ChunkHeader(RIFF, n, WAVE + chunks);
    assert b[8..12] == WAVE;
    assert b[12..] == chunks;
  }

  lemma FormatChunk(f: Format, rest: seq<byte>)
    ensures ReadChunks(FMT + LittleEndian32(16) + (FormatBody(f) + rest), None) == ReadChunks(rest, Some(f))
  {
    var body := FormatBody(f);
    var chunks := FMT + LittleEndian32(16) + (body + rest);
    ChunkHeader(FMT, 16, body + rest);
    assert chunks[8..8 + 16] == body;
    assert chunks[8 + 16..] == rest;
    FormatRoundTrip(f);
  }

  lemma SizesWithoutWrap(length: nat)
    ensures length + 36 < 0x1_0000_0000 ==> DataSize(length) == length
    ensures ChunkSize(length) == 36 + length <==> length + 36 < 0x1_0000_0000
  {
  }

  lemma Regroup(a: seq<byte>, b: seq<byte>, c: seq<byte>, d: seq<byte>, e: seq<byte>)
    ensures a + b + c + d + e == a + b + (c + (d + e))
  {
  }

  /**
   For every format and every payload the reader recovers rate, channels, bits, byte rate, block align and samples
   exactly when the payload is Readable, and otherwise refuses the file.
   */
  lemma WavRoundTrip(f: Format, pcm: seq<byte>)
    ensures ReadWav(WavFile(f, pcm)) == if Readable(pcm) then Some(Sound(f, pcm)) else None
  {
    var n := DataSize(|pcm|);
    var fmt := FMT + LittleEndian32(16) + FormatBody(f);
    var data := DATA + LittleEndian32(n) + pcm;
    Regroup(RIFF, LittleEndian32(ChunkSize(|pcm|)), WAVE, fmt, data);
    RiffHeader(ChunkSize(|pcm|), fmt + data);
    SizesWithoutWrap(|pcm|);
    assert fmt + data == FMT + LittleEndian32(16) + (FormatBody(f) + data);
    if |pcm| + 36 < 0x1_0000_0000 {
      FormatChunk(f, data);
      DataChunk(f, pcm);
    }
  }

  /** Without wrap-around, and with whole bytes per frame, the byte rate is the sample rate times the block align. */
  lemma ByteRateIsFrameRate(sampleRate: uint32, channels: uint16, bits: uint16)
    requires (channels as int) * bits % 8 == 0 && (channels as int) * bits < 0x1_0000
    requires (sampleRate as int) * channels < 0x1_0000_0000 && (sampleRate as int) * channels * bits < 0x1_0000_0000
    ensures ByteRate(sampleRate, channels, bits) == (sampleRate as int) * BlockAlign(channels, bits)
  {
    Eighths(sampleRate, channels, bits, (channels as int) * bits / 8);
  }

  lemma Eighths(rate: int, channels: int, bits: int, frame: int)
    requires channels * bits == 8 * frame
    ensures rate * channels * bits == 8 * (rate * frame)
  {
    calc {
      rate * channels * bits;
      rate * (channels * bits);
      rate * (8 * frame);
      8 * (rate * frame);
    }
  }
}
