/**
 The RadioAudioEngine object of internal/web/static/js/audio.js, transmit side. One PCM buffer is reused for every
 packet; queued packets are objects of their own, so later writes to the buffer do not reach them.
 */
module AudioEngine {
  import opened Bytes
  import opened AudioSession
  import Protocol

  function Contents(packets: seq<array<byte>>): seq<seq<byte>>
    reads packets
  {
    seq(|packets|, i requires 0 <= i < |packets| reads packets => packets[i][..])
  }

  class RadioAudioEngine {
    var isTransmitting: bool
    var isPreBuffering: bool
    var preBufferQueue: seq<array<byte>>
    var currentChannel: int
    var seqCounter: nat
    var isFirstChunk: bool
    const pcmBuffer: array<byte>
    var pcmBufferIndex: nat
    /** What sendPacket has handed to the socket, in order. */
    var sent: seq<seq<byte>>

    ghost function State(): Engine<seq<byte>>
      reads this, preBufferQueue, pcmBuffer
    {
      Engine(JsPacket, isTransmitting, isPreBuffering, Contents(preBufferQueue), currentChannel, seqCounter,
             isFirstChunk, pcmBuffer[..], pcmBufferIndex, sent)
    }

    /** The shared buffer is none of the queued packets. */
    ghost predicate Valid()
      reads this, preBufferQueue, pcmBuffer
    {
      State().Valid() && pcmBuffer !in preBufferQueue
    }

    constructor ()
      ensures Valid() && fresh(pcmBuffer) && preBufferQueue == []
      ensures !isTransmitting && !isPreBuffering && sent == []
    {
      isTransmitting, isPreBuffering, preBufferQueue := false, false, [];
      currentChannel, seqCounter, isFirstChunk, sent := 1, 0, true, [];
      pcmBuffer, pcmBufferIndex := new byte[1280](_ => 0), 0;
    }

    /** _buildAudioPacket: a new buffer, into which the payload is copied. */
    static method BuildAudioPacket(channelID: int, flags: int, seqNum: int, payload: array<byte>)
      returns (packet: array<byte>)
      ensures fresh(packet)
      ensures packet[..] == JsPacket(channelID, flags, seqNum, payload[..])
    {
      packet := new byte[Protocol.AUDIO_HEADER_SIZE + payload.Length];
      packet[0], packet[1] := 0x52, 0x41;
      packet[2], packet[3] := LowByte(channelID), LowByte(flags);
      packet[4], packet[5] := ShiftedByte(seqNum, 3), ShiftedByte(seqNum, 2);
      packet[6], packet[7] := ShiftedByte(seqNum, 1), LowByte(seqNum);
      ghost var header := packet[..8];
      Protocol.Copy(packet, Protocol.AUDIO_HEADER_SIZE, payload[..]);
      assert packet[..] == packet[..8] + packet[8..8 + payload.Length];
      assert packet[..8] == header;
    }

    method NextFlags(isLast: bool) returns (flags: int)
      modifies this`isFirstChunk
      ensures flags == (if old(isFirstChunk) then 1 else 0) + (if isLast then 2 else 0) && !isFirstChunk
    {
      flags := 0;
      if isFirstChunk {
        flags := flags + 1;
        isFirstChunk := false;
      }
      if isLast {
        flags := flags + 2;
      }
    }

    /** A finished packet is sent, or queued while the floor is not granted yet and there is room. */
    method Emit(packet: array<byte>)
      requires packet != pcmBuffer && pcmBuffer !in preBufferQueue
      modifies this`sent, this`preBufferQueue
      ensures State() == old(State()).Emitted(packet[..])
      ensures pcmBuffer !in preBufferQueue
    {
      if isTransmitting {
        sent := sent + [packet[..]];
      } else if isPreBuffering {
        if |preBufferQueue| < 15 {
          preBufferQueue := preBufferQueue + [packet];
          assert Contents(preBufferQueue) == old(Contents(preBufferQueue)) + [packet[..]];
        }
      }
    }

    method FlushPCMPacket(isLast: bool)
      requires pcmBuffer !in preBufferQueue
      modifies this
      ensures State() == old(State()).Flushed(isLast)
      ensures pcmBuffer !in preBufferQueue
    {
      seqCounter := seqCounter + 1;
      var flags := NextFlags(isLast);
      var packet := BuildAudioPacket(currentChannel, flags, seqCounter, pcmBuffer);
      assert Contents(preBufferQueue) == old(Contents(preBufferQueue));
      Emit(packet);
      pcmBufferIndex := 0;
    }

    /** The framing loop of onaudioprocess, on samples already resampled to 16 kHz and clamped. */
    method OnAudioProcess(samples: seq<int16>)
      requires Valid()
      modifies this, pcmBuffer
      ensures Valid() && State() == old(State()).Processed(samples)
    {
      if !isTransmitting && !isPreBuffering {
        return;
      }
      for i := 0 to |samples|
        invariant Valid() && State() == old(State()).Captured(samples[..i])
      {
        CaptureSample(samples[i]);
        assert samples[..i + 1][..i] == samples[..i];
      }
      assert samples[..|samples|] == samples;
    }

    method CaptureSample(sample: int16)
      requires Valid()
      modifies this, pcmBuffer
      ensures Valid() && State() == old(State()).Sampled(sample)
    {
      var b := SampleBytes(sample);
      pcmBuffer[2 * pcmBufferIndex], pcmBuffer[2 * pcmBufferIndex + 1] := b[0], b[1];
      ghost var i, was := pcmBufferIndex, old(pcmBuffer[..]);
      assert pcmBuffer[..] == was[..2 * i] + b + was[2 * i + 2..];
      assert Contents(preBufferQueue) == old(Contents(preBufferQueue));
      pcmBufferIndex := pcmBufferIndex + 1;
      if pcmBufferIndex >= 640 {
        FlushPCMPacket(false);
      }
    }

    method StartPreBuffering(channelID: int)
      requires Valid()
      modifies this
      ensures Valid() && State() == old(State()).PreBuffering(channelID)
    {
      currentChannel := channelID;
      isPreBuffering := true;
      preBufferQueue := [];
      pcmBufferIndex := 0;
      seqCounter := 0;
      isFirstChunk := true;
    }

    method ConfirmTransmission()
      requires Valid()
      modifies this
      ensures Valid() && State() == old(State()).Confirmed()
    {
      isPreBuffering := false;
      isTransmitting := true;
      if |preBufferQueue| > 0 {
        for i := 0 to |preBufferQueue|
          invariant preBufferQueue == old(preBufferQueue) && !isPreBuffering && isTransmitting
          invariant isFirstChunk == old(isFirstChunk)
          invariant currentChannel == old(currentChannel) && seqCounter == old(seqCounter)
          invariant pcmBufferIndex == old(pcmBufferIndex)
          invariant sent == old(sent) + Contents(preBufferQueue)[..i]
        {
          sent := sent + [preBufferQueue[i][..]];
        }
        preBufferQueue := [];
      }
    }

    method StartTransmission(channelID: int)
      requires Valid()
      modifies this
      ensures Valid() && State() == old(State()).Transmitting(channelID)
    {
      currentChannel := channelID;
      isTransmitting := true;
      isFirstChunk := true;
      seqCounter := 0;
      pcmBufferIndex := 0;
    }

    method StopTransmission()
      requires Valid()
      modifies this
      ensures Valid() && State() == old(State()).Stopped()
    {
      isPreBuffering := false;
      if isTransmitting {
        if pcmBufferIndex > 0 {
          FlushPCMPacket(true);
        } else {
          seqCounter := seqCounter + 1;
          var dummyPayload := new byte[2](_ => 0);
          var lastPacket := BuildAudioPacket(currentChannel, 2, seqCounter, dummyPayload);
          assert dummyPayload[..] == [0, 0];
          sent := sent + [lastPacket[..]];
        }
      }
      preBufferQueue := [];
      isTransmitting := false;
    }
  }
}
