/**
 The binary audio packet: an eight-byte header (magic, channel, flags, big-endian sequence number) before the
 payload. The server writes and reads it in internal/radio/protocol.go, the browser writes it in audio.js.
 */
module Protocol {
  import opened Wrappers
  import opened Bytes

  const AUDIO_MAGIC_0: byte := 0x52
  const AUDIO_MAGIC_1: byte := 0x41
  const AUDIO_HEADER_SIZE: nat := 8

  const FLAG_AUDIO_FIRST: byte := 0x01
  const FLAG_AUDIO_LAST: byte := 0x02
  const FLAG_AUDIO_ALL_CALL: byte := 0x04

  datatype AudioPacketHeader = AudioPacketHeader(channelID: byte, flags: byte, seqNum: uint32)

  datatype QuickFields = QuickFields(channelID: byte, flags: byte, seqNum: uint32, payload: seq<byte>)

  /** The bit `flags & FlagAudioAllCall`. */
  predicate IsAllCall(flags: byte) {
    flags / FLAG_AUDIO_ALL_CALL % 2 == 1
  }

  /** Header and payload of a packet, or None for ErrInvalidAudioPacket. */
  function ParseAudioHeader(data: seq<byte>): Option<(AudioPacketHeader, seq<byte>)> {
    if |data| < AUDIO_HEADER_SIZE then None
    else if data[0] != AUDIO_MAGIC_0 || data[1] != AUDIO_MAGIC_1 then None
    else Some((AudioPacketHeader(data[2], data[3], FromBigEndian32(data[4..8])), data[AUDIO_HEADER_SIZE..]))
  }

  function ParseAudioHeaderQuick(data: seq<byte>): Option<QuickFields> {
    if |data| < AUDIO_HEADER_SIZE then None
    else if data[0] != AUDIO_MAGIC_0 || data[1] != AUDIO_MAGIC_1 then None
    else Some(QuickFields(data[2], data[3], FromBigEndian32(data[4..8]), data[AUDIO_HEADER_SIZE..]))
  }

  /** The bytes of a packet. */
  function Packet(channelID: byte, flags: byte, seqNum: uint32, payload: seq<byte>): (b: seq<byte>)
    ensures |b| == AUDIO_HEADER_SIZE + |payload|
  {
    [AUDIO_MAGIC_0, AUDIO_MAGIC_1, channelID, flags] + BigEndian32(seqNum) + payload
  }

  /** EncodeAudioPacket fills a new buffer in place. */
  method EncodeAudioPacket(channelID: byte, flags: byte, seqNum: uint32, payload: seq<byte>) returns (buf: array<byte>)
    ensures fresh(buf)
    ensures buf[..] == Packet(channelID, flags, seqNum, payload)
    ensures ParseAudioHeader(buf[..]) == Some((AudioPacketHeader(channelID, flags, seqNum), payload))
  {
    buf := new byte[AUDIO_HEADER_SIZE + |payload|];
    buf[0], buf[1], buf[2], buf[3] := AUDIO_MAGIC_0, AUDIO_MAGIC_1, channelID, flags;
    PutUint32(buf, 4, seqNum);
    Copy(buf, AUDIO_HEADER_SIZE, payload);
    assert buf[..] == buf[..4] + buf[4..8] + buf[8..];
    ParseInvertsEncode(channelID, flags, seqNum, payload);
  }

  method PutUint32(buf: array<byte>, at: nat, n: uint32)
    requires at + 4 <= buf.Length
    modifies buf
    ensures buf[..at] == old(buf[..at])
    ensures buf[at..at + 4] == BigEndian32(n)
    ensures buf[at + 4..] == old(buf[at + 4..])
  {
    var b := BigEndian32(n);
    buf[at], buf[at + 1], buf[at + 2], buf[at + 3] := b[0], b[1], b[2], b[3];
  }

  /** Go's copy and JavaScript's TypedArray.set: `src` lands in `buf` from index `at`. */
  method Copy(buf: array<byte>, at: nat, src: seq<byte>)
    requires at + |src| <= buf.Length
    modifies buf
    ensures buf[..at] == old(buf[..at])
    ensures buf[at..at + |src|] == src
    ensures buf[at + |src|..] == old(buf[at + |src|..])
  {
    for i := 0 to |src|
      invariant buf[..at] == old(buf[..at])
      invariant buf[at..at + i] == src[..i]
      invariant buf[at + |src|..] == old(buf[at + |src|..])
    {
      buf[at + i] := src[i];
      assert buf[at..at + i + 1] == buf[at..at + i] + [src[i]];
      assert src[..i + 1] == src[..i] + [src[i]];
    }
    assert src[..|src|] == src;
  }

  /** The two Go parsers accept the same byte strings and read the same fields. */
  lemma ParsersAgree(data: seq<byte>)
    ensures ParseAudioHeader(data).Some? == ParseAudioHeaderQuick(data).Some?
    ensures ParseAudioHeader(data).Some? ==>
              var (h, p) := ParseAudioHeader(data).value;
              ParseAudioHeaderQuick(data).value == QuickFields(h.channelID, h.flags, h.seqNum, p)
  {
  }

  /** Parsing inverts encoding, for every field value and payload. */
  lemma ParseInvertsEncode(channelID: byte, flags: byte, seqNum: uint32, payload: seq<byte>)
    ensures ParseAudioHeader(Packet(channelID, flags, seqNum, payload)) ==
            Some((AudioPacketHeader(channelID, flags, seqNum), payload))
  {
    var b := Packet(channelID, flags, seqNum, payload);
    assert b[4..8] == BigEndian32(seqNum);
    assert b[AUDIO_HEADER_SIZE..] == payload;
    BigEndianRoundTrip(seqNum);
  }

  /** A byte string parses exactly when it is some packet, and re-encoding what was read gives it back. */
  lemma EncodeInvertsParse(data: seq<byte>)
    ensures ParseAudioHeader(data).Some? <==> exists c, f, n, p :: data == Packet(c, f, n, p)
    ensures ParseAudioHeader(data).Some? ==>
              var (h, p) := ParseAudioHeader(data).value;
              data == Packet(h.channelID, h.flags, h.seqNum, p)
  {
    if ParseAudioHeader(data).Some? {
      var (h, p) := ParseAudioHeader(data).value;
      BigEndianOnto(data[4..8]);
      assert data == data[..4] + data[4..8] + data[8..];
      assert data == Packet(h.channelID, h.flags, h.seqNum, p);
    } else if c, f, n, p :| data == Packet(c, f, n, p) {
      ParseInvertsEncode(c, f, n, p);
    }
  }
}
