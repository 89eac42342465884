/**
 The browser's transmit side (internal/web/static/js/audio.js) as functions on values: the packet builder in
 JavaScript's 32-bit arithmetic, and the pre-buffer, live and stop steps. The theorems say what one keying sends.
 */
module AudioSession {
  import opened Wrappers
  import opened Bytes
  import Protocol

  // A packet carries 640 samples, 40 ms at 16 kHz.
  const PRE_BUFFER_CAP: nat := 15

  type int16 = n: int | -0x8000 <= n < 0x8000

  // ---- JavaScript's integer operators ----

  /** ToInt32 of an integral Number. */
  function ToInt32(n: int): int {
    (n + 0x8000_0000) % 0x1_0000_0000 - 0x8000_0000
  }

  /** `n & 0xff`: the low byte of the two's complement form. */
  function LowByte(n: int): byte {
    ToInt32(n) % 0x100
  }

  /** `(n >> 8 * k) & 0xff`: `>>` floors. */
  function ShiftedByte(n: int, k: nat): byte {
    if k == 0 then LowByte(n)
    else if k == 1 then ToInt32(n) / 0x100 % 0x100
    else if k == 2 then ToInt32(n) / 0x1_0000 % 0x100
    else ToInt32(n) / 0x100_0000 % 0x100
  }

  /** _buildAudioPacket. */
  function JsPacket(channelID: int, flags: int, seqNum: int, payload: seq<byte>): seq<byte> {
    [0x52, 0x41, LowByte(channelID), LowByte(flags), ShiftedByte(seqNum, 3), ShiftedByte(seqNum, 2),
      ShiftedByte(seqNum, 1), LowByte(seqNum)]
    + payload
  }

  lemma DropMultiple(q: int, w: int)
    ensures (q - 0x100 * w) % 0x100 == q % 0x100
  {
  }

  // The low byte of a shifted word does not see multiples of 2^32.

  lemma DropWords24(n: int, w: int)
    ensures (n - w * 0x1_0000_0000) / 0x100_0000 % 0x100 == n / 0x100_0000 % 0x100
  {
  }

  lemma DropWords16(n: int, w: int)
    ensures (n - w * 0x1_0000_0000) / 0x1_0000 % 0x100 == n / 0x1_0000 % 0x100
  {
  }

  lemma DropWords8(n: int, w: int)
    ensures (n - w * 0x1_0000_0000) / 0x100 % 0x100 == n / 0x100 % 0x100
  {
  }

  lemma Word(n: int)
    ensures ToInt32(n) == n - (n + 0x8000_0000) / 0x1_0000_0000 * 0x1_0000_0000
    ensures n % 0x1_0000_0000 == n - n / 0x1_0000_0000 * 0x1_0000_0000
  {
  }

  lemma LowByteIsModulo(n: int)
    ensures LowByte(n) == n % 0x100
  {
  }

  lemma ShiftedBytes(n: int)
    ensures var u := n % 0x1_0000_0000;
            && ShiftedByte(n, 3) == u / 0x100_0000 && ShiftedByte(n, 2) == u / 0x1_0000 % 0x100
            && ShiftedByte(n, 1) == u / 0x100 % 0x100 && LowByte(n) == u % 0x100
  {
    var w, v := (n + 0x8000_0000) / 0x1_0000_0000, n / 0x1_0000_0000;
    Word(n);
    DropWords24(n, w);
    DropWords24(n, v);
    DropWords16(n, w);
    DropWords16(n, v);
    DropWords8(n, w);
    DropWords8(n, v);
    LowByteIsModulo(n);
    DropMultiple(n, v * 0x100_0000);
    TopByte(n % 0x1_0000_0000);
  }

  lemma TopByte(u: uint32)
    ensures u / 0x100_0000 % 0x100 == u / 0x100_0000
  {
  }

  /** The browser's bytes are the Go encoder's, with the fields reduced modulo 2^8, 2^8 and 2^32. */
  lemma JsPacketIsGoPacket(channelID: int, flags: int, seqNum: int, payload: seq<byte>)
    ensures JsPacket(channelID, flags, seqNum, payload)
            == Protocol.Packet(channelID % 0x100, flags % 0x100, seqNum % 0x1_0000_0000, payload)
  {
    LowByteIsModulo(channelID);
    LowByteIsModulo(flags);
    ShiftedBytes(seqNum);
  }

  // ---- The engine's steps ----

  /** A 16-bit sample as it lies in the buffer. */
  function SampleBytes(x: int16): (b: seq<byte>)
    ensures |b| == 2
  {
    LittleEndian16((x as int) % 0x1_0000)
  }

  function BytesOf(samples: seq<int16>): (b: seq<byte>)
    ensures |b| == 2 * |samples|
  {
    seq(2 * |samples|, j requires 0 <= j < 2 * |samples| => SampleBytes(samples[j / 2])[j % 2])
  }

  /** A packet builder: channel, flags, sequence number and payload in, a packet out. The engine's is JsPacket. */
  type Builder<!P> = (int, int, int, seq<byte>) -> P

  /** The fields that matter for sending; `sent` is what sendPacket got, `queue` the queued packets. */
  datatype Engine<!P> = Engine(build: Builder<P>, isTransmitting: bool, isPreBuffering: bool, queue: seq<P>,
                               currentChannel: int, seqCounter: nat, isFirstChunk: bool, pcm: seq<byte>,
                               index: nat, sent: seq<P>) {
    predicate Valid() {
      |pcm| == 2 * 640 && index < 640
    }

    /** A packet is sent, or queued while the floor is not granted yet and there is room. */
    function Emitted(packet: P): Engine<P> {
      if isTransmitting then this.(sent := sent + [packet])
      else if isPreBuffering && |queue| < PRE_BUFFER_CAP then this.(queue := queue + [packet])
      else this
    }

    function Flushed(isLast: bool): (e: Engine<P>)
      ensures e.pcm == pcm && e.index == 0
    {
      var flags := (if isFirstChunk then 1 else 0) + (if isLast then 2 else 0);
      var packet := build(currentChannel, flags, seqCounter + 1, pcm);
      this.(seqCounter := seqCounter + 1, isFirstChunk := false).Emitted(packet).(index := 0)
    }

    function Sampled(x: int16): (e: Engine<P>)
      requires Valid()
      ensures e.Valid()
    {
      var e := this.(pcm := pcm[..2 * index] + SampleBytes(x) + pcm[2 * index + 2..], index := index + 1);
      if e.index >= 640 then e.Flushed(false) else e
    }

    function Captured(samples: seq<int16>): (e: Engine<P>)
      requires Valid()
      ensures e.Valid()
      decreases |samples|
    {
      if samples == [] then this else Captured(samples[..|samples| - 1]).Sampled(samples[|samples| - 1])
    }

    /** One audio callback: nothing is captured unless a session is on. */
    function Processed(samples: seq<int16>): (e: Engine<P>)
      requires Valid()
      ensures e.Valid()
    {
      if !isTransmitting && !isPreBuffering then this else Captured(samples)
    }

    function PreBuffering(channelID: int): Engine<P> {
      this.(currentChannel := channelID, isPreBuffering := true, queue := [], index := 0, seqCounter := 0,
        isFirstChunk := true)
    }

    function Confirmed(): Engine<P> {
      this.(isPreBuffering := false, isTransmitting := true, sent := sent + queue, queue := [])
    }

    function Transmitting(channelID: int): Engine<P> {
      this.(currentChannel := channelID, isTransmitting := true, isFirstChunk := true, seqCounter := 0, index := 0)
    }

    function Stopped(): Engine<P> {
      var e := this.(isPreBuffering := false);
      var e1 := if !isTransmitting then e
                else if index > 0 then e.Flushed(true)
                else
                  e.(seqCounter := seqCounter + 1, sent := sent + [build(currentChannel, 2, seqCounter + 1, [0, 0])]);
      e1.(queue := [], isTransmitting := false)
    }
  }

  lemma {:induction false} CapturedInParts<P>(e: Engine<P>, s: seq<int16>, t: seq<int16>)
    requires e.Valid()
    ensures e.Captured(s + t) == e.Captured(s).Captured(t)
    decreases |t|
  {
    if t == [] {
      assert s + t == s;
    } else {
      CapturedInParts(e, s, t[..|t| - 1]);
      assert (s + t)[..|s + t| - 1] == s + t[..|t| - 1];
    }
  }

  // ---- What a session sends ----

  /** The samples of frame `k`. */
  function FrameOf(s: seq<int16>, k: nat): seq<int16>
    requires 640 * (k + 1) <= |s|
  {
    s[640 * k..640 * (k + 1)]
  }

  /** Packet `k` of a session: numbered from 1, and only packet 0 is flagged as the first. */
  function FramePacket<P>(build: Builder<P>, ch: int, s: seq<int16>, k: nat): P
    requires 640 * (k + 1) <= |s|
  {
    build(ch, if k == 0 then 1 else 0, k + 1, BytesOf(FrameOf(s, k)))
  }

  /** Packets `lo` up to `hi`, the latter excluded. */
  function FramePackets<P>(build: Builder<P>, ch: int, s: seq<int16>, lo: nat, hi: nat): (r: seq<P>)
    requires lo <= hi && 640 * hi <= |s|
    ensures |r| == hi - lo
    ensures forall i :: 0 <= i < |r| ==> r[i] == FramePacket(build, ch, s, lo + i)
  {
    if lo == hi then [] else FramePackets(build, ch, s, lo, hi - 1) + [FramePacket(build, ch, s, hi - 1)]
  }

  function Min(a: nat, b: nat): nat { if a <= b then a else b }

  /** What lies in the PCM buffer behind the current residue: the previous frame, or what an earlier session left. */
  function Stale(s: seq<int16>, pcm0: seq<byte>): seq<byte> {
    var n := |s| / 640;
    if n == 0 then pcm0 else BytesOf(FrameOf(s, n - 1))
  }

  function Residue(s: seq<int16>): seq<int16> {
    s[640 * (|s| / 640)..]
  }

  /** The PCM buffer after samples `s` of a session: the residue, and behind it what was there before. */
  function BufferAfter(s: seq<int16>, pcm0: seq<byte>): (b: seq<byte>)
    requires |pcm0| == 2 * 640
    ensures |b| == 2 * 640
  {
    BytesOf(Residue(s)) + Stale(s, pcm0)[2 * (|s| % 640)..]
  }

  ghost predicate Counts<P>(e: Engine<P>, ch: int, s: seq<int16>, live: bool, built: nat) {
    var n := |s| / 640;
    && e.isTransmitting == live && (!live ==> e.isPreBuffering && built == n)
    && built <= n
    && e.currentChannel == ch && e.seqCounter == n && e.isFirstChunk == (n == 0)
  }

  ghost predicate Buffers<P>(e: Engine<P>, s: seq<int16>, pcm0: seq<byte>) {
    && e.Valid() && |pcm0| == 2 * 640
    && e.index == |s| % 640
    && e.pcm == BufferAfter(s, pcm0)
  }

  ghost predicate Emits<P>(e: Engine<P>, sent0: seq<P>, ch: int, s: seq<int16>, live: bool, built: nat)
    requires built <= |s| / 640
  {
    var n := |s| / 640;
    if live then
      e.sent ==
        sent0 + FramePackets(e.build, ch, s, 0, Min(built, PRE_BUFFER_CAP)) + FramePackets(e.build, ch, s, built, n)
    else e.queue == FramePackets(e.build, ch, s, 0, Min(n, PRE_BUFFER_CAP)) && e.sent == sent0
  }

  /**
   The engine `s` samples into a session started from `e0`. The first `built` packets met the pre-buffer, which was
   flushed when the session went live.
   */
  ghost predicate InSession<P>(e: Engine<P>, e0: Engine<P>, ch: int, s: seq<int16>, live: bool, built: nat) {
    && e.build == e0.build && Counts(e, ch, s, live, built)
    && Buffers(e, s, e0.pcm) && Emits(e, e0.sent, ch, s, live, built)
  }

  lemma {:induction false} FramesOfLonger<P>(build: Builder<P>, ch: int, s: seq<int16>, t: seq<int16>, lo: nat, hi: nat)
    requires lo <= hi && 640 * hi <= |s| && s <= t
    ensures FramePackets(build, ch, s, lo, hi) == FramePackets(build, ch, t, lo, hi)
    decreases hi
  {
    if lo < hi {
      FramesOfLonger(build, ch, s, t, lo, hi - 1);
      assert FrameOf(s, hi - 1) == FrameOf(t, hi - 1);
    }
  }

  lemma BytesOfSnoc(s: seq<int16>, x: int16)
    ensures BytesOf(s + [x]) == BytesOf(s) + SampleBytes(x)
  {
  }

  lemma SessionStarts<P>(e0: Engine<P>, ch: int)
    requires e0.Valid()
    ensures !e0.isTransmitting ==> InSession(e0.PreBuffering(ch), e0, ch, [], false, 0)
    ensures InSession(e0.Transmitting(ch), e0, ch, [], true, 0)
  {
  }

  lemma ConfirmedSession<P>(e: Engine<P>, e0: Engine<P>, ch: int, s: seq<int16>, built: nat)
    requires InSession(e, e0, ch, s, false, built)
    ensures InSession(e.Confirmed(), e0, ch, s, true, built)
  {
  }

  lemma SampleLands<P>(e: Engine<P>, x: int16, head: seq<byte>, tail: seq<byte>)
    requires e.Valid() && |head| == 2 * e.index && |tail| == 2 * 640 && e.pcm == head + tail[2 * e.index..]
    ensures e.Sampled(x).pcm == head + SampleBytes(x) + tail[2 * e.index + 2..]
    ensures e.Sampled(x).index == (e.index + 1) % 640
  {
  }

  lemma ResidueGrows(s: seq<int16>, x: int16)
    ensures |s| % 640 < 639 ==> Residue(s + [x]) == Residue(s) + [x]
    ensures |s| % 640 == 639 ==>
              Residue(s + [x]) == [] && FrameOf(s + [x], |s| / 640) == Residue(s) + [x]
  {
  }

  lemma StaleStays(s: seq<int16>, x: int16, pcm0: seq<byte>)
    requires |s| % 640 < 639
    ensures Stale(s + [x], pcm0) == Stale(s, pcm0)
  {
    var n, t := |s| / 640, s + [x];
    assert |t| / 640 == n;
    if n > 0 {
      assert FrameOf(t, n - 1) == FrameOf(s, n - 1);
      assert Stale(t, pcm0) == BytesOf(FrameOf(t, n - 1));
      assert Stale(s, pcm0) == BytesOf(FrameOf(s, n - 1));
    } else {
      assert Stale(t, pcm0) == pcm0 == Stale(s, pcm0);
    }
  }

  lemma BufferGrows<P>(e: Engine<P>, s: seq<int16>, x: int16, pcm0: seq<byte>)
    requires Buffers(e, s, pcm0)
    ensures Buffers(e.Sampled(x), s + [x], pcm0)
    ensures e.index == 639 ==> e.Sampled(x).pcm == BytesOf(FrameOf(s + [x], |s| / 640))
  {
    SampleLands(e, x, BytesOf(Residue(s)), Stale(s, pcm0));
    BytesOfSnoc(Residue(s), x);
    ResidueGrows(s, x);
    assert |s + [x]| % 640 == (|s| % 640 + 1) % 640;
    if e.index < 639 {
      StaleStays(s, x, pcm0);
    } else {
      assert |s + [x]| / 640 == |s| / 640 + 1;
    }
  }

  /** A sample that does not complete a frame emits nothing. */
  lemma EmitsInFrame<P>(e: Engine<P>, sent0: seq<P>, ch: int, s: seq<int16>, x: int16, live: bool, built: nat)
    requires Counts(e, ch, s, live, built) && e.Valid() && e.index == |s| % 640 < 639
    requires Emits(e, sent0, ch, s, live, built)
    ensures Counts(e.Sampled(x), ch, s + [x], live, built) && Emits(e.Sampled(x), sent0, ch, s + [x], live, built)
  {
    var n, t := |s| / 640, s + [x];
    FramesOfLonger(e.build, ch, s, t, 0, Min(built, PRE_BUFFER_CAP));
    FramesOfLonger(e.build, ch, s, t, built, n);
  }

  /** The sample that completes frame `n`: the packet sent or queued is packet `n`. */
  lemma EmitsFrame<P>(e: Engine<P>, sent0: seq<P>, ch: int, s: seq<int16>, x: int16, live: bool, built: nat)
    requires Counts(e, ch, s, live, built) && e.Valid() && e.index == |s| % 640 == 639
    requires Emits(e, sent0, ch, s, live, built)
    requires e.Sampled(x).pcm == BytesOf(FrameOf(s + [x], |s| / 640))
    ensures var b := if live then built else built + 1;
            Counts(e.Sampled(x), ch, s + [x], live, b) && Emits(e.Sampled(x), sent0, ch, s + [x], live, b)
  {
    var n, t, e1 := |s| / 640, s + [x], e.Sampled(x);
    FramesOfLonger(e.build, ch, s, t, 0, Min(built, PRE_BUFFER_CAP));
    FramesOfLonger(e.build, ch, s, t, built, n);
    assert n + 1 == |t| / 640;
    var packet := e.build(ch, if n == 0 then 1 else 0, n + 1, e1.pcm);
    assert packet == FramePacket(e.build, ch, t, n);
    if live {
      assert e1.sent == e.sent + [packet];
      assert FramePackets(e.build, ch, t, built, n + 1) == FramePackets(e.build, ch, t, built, n) + [packet];
    } else if n < PRE_BUFFER_CAP {
      assert e1.queue == e.queue + [packet];
    }
  }

  lemma Regroup<T>(s: seq<T>, x: seq<T>)
    requires x != []
    ensures s + x == s + x[..|x| - 1] + [x[|x| - 1]]
  {
  }

  lemma {:induction false} CaptureInSession<P>(e: Engine<P>, e0: Engine<P>, ch: int, s: seq<int16>, x: seq<int16>,
                                               live: bool, built: nat)
    requires InSession(e, e0, ch, s, live, built)
    ensures InSession(e.Captured(x), e0, ch, s + x, live, if live then built else |s + x| / 640)
    decreases |x|
  {
    if x == [] {
      assert s + x == s;
    } else {
      var front, last := x[..|x| - 1], x[|x| - 1];
      CaptureInSession(e, e0, ch, s, front, live, built);
      Regroup(s, x);
      var mid := e.Captured(front);
      var b := if live then built else |s + front| / 640;
      BufferGrows(mid, s + front, last, e0.pcm);
      if mid.index < 639 {
        EmitsInFrame(mid, e0.sent, ch, s + front, last, live, b);
      } else {
        EmitsFrame(mid, e0.sent, ch, s + front, last, live, b);
      }
    }
  }

  /** The packet that ends a session of `length` samples: the buffer if it holds a residue, else two zero bytes. */
  function FinalPacket<P>(build: Builder<P>, ch: int, length: nat, buffer: seq<byte>): P {
    if length % 640 == 0 then build(ch, 2, length / 640 + 1, [0, 0])
    else build(ch, if length < 640 then 3 else 2, length / 640 + 1, buffer)
  }

  /**
   All packets of a session: samples `s`, floor granted `built` frames into it, `buffer` the PCM buffer at its end.
   */
  function SessionPackets<P>(build: Builder<P>, ch: int, s: seq<int16>, built: nat, buffer: seq<byte>): seq<P>
    requires built <= |s| / 640
  {
    FramePackets(build, ch, s, 0, Min(built, PRE_BUFFER_CAP)) + FramePackets(build, ch, s, built, |s| / 640)
    + [FinalPacket(build, ch, |s|, buffer)]
  }

  lemma StoppingSends<P>(e: Engine<P>, sent0: seq<P>, ch: int, s: seq<int16>, built: nat)
    requires Counts(e, ch, s, true, built) && Emits(e, sent0, ch, s, true, built) && e.index == |s| % 640
    ensures e.Stopped().sent == sent0 + SessionPackets(e.build, ch, s, built, e.pcm)
  {
  }

  lemma {:induction false} CaptureKeepsMode<P>(e: Engine<P>, s: seq<int16>)
    requires e.Valid()
    ensures e.Captured(s).isTransmitting == e.isTransmitting && e.Captured(s).isPreBuffering == e.isPreBuffering
    decreases |s|
  {
    if s != [] {
      CaptureKeepsMode(e, s[..|s| - 1]);
    }
  }

  /** How the samples are cut into audio callbacks makes no difference. */
  lemma CallbacksDoNotMatter<P>(e: Engine<P>, s: seq<int16>, t: seq<int16>)
    requires e.Valid()
    ensures e.Processed(s + t) == e.Processed(s).Processed(t)
  {
    CapturedInParts(e, s, t);
    CaptureKeepsMode(e, s);
  }

  /** A keying with pre-buffering: start, samples `s1`, grant, samples `s2`, stop. */
  function Keying<P>(e0: Engine<P>, ch: int, s1: seq<int16>, s2: seq<int16>): Engine<P>
    requires e0.Valid()
  {
    e0.PreBuffering(ch).Processed(s1).Confirmed().Processed(s2).Stopped()
  }

  /**
   A confirmed keying sends its first 15 frames from before the grant, every frame after it, and the final packet; then
   the engine is idle again and captures nothing.
   */
  lemma KeyingSends<P>(e0: Engine<P>, ch: int, s1: seq<int16>, s2: seq<int16>, later: seq<int16>)
    requires e0.Valid() && !e0.isTransmitting
    ensures var e := Keying(e0, ch, s1, s2);
            && e.sent == e0.sent + SessionPackets(e0.build, ch, s1 + s2, |s1| / 640, BufferAfter(s1 + s2, e0.pcm))
            && !e.isTransmitting && !e.isPreBuffering && e.queue == [] && e.Valid() && e.Processed(later) == e
  {
    SessionStarts(e0, ch);
    var e1 := e0.PreBuffering(ch);
    CaptureInSession(e1, e0, ch, [], s1, false, 0);
    assert [] + s1 == s1;
    ConfirmedSession(e1.Captured(s1), e0, ch, s1, |s1| / 640);
    var e2 := e1.Captured(s1).Confirmed();
    CaptureInSession(e2, e0, ch, s1, s2, true, |s1| / 640);
    StoppingSends(e2.Captured(s2), e0.sent, ch, s1 + s2, |s1| / 640);
  }

  /** A keying that is never granted sends nothing. */
  lemma UnconfirmedKeyingSendsNothing<P>(e0: Engine<P>, ch: int, s: seq<int16>)
    requires e0.Valid() && !e0.isTransmitting
    ensures var e := e0.PreBuffering(ch).Processed(s).Stopped(); e.sent == e0.sent && e.queue == [] && !e.isTransmitting
  {
    SessionStarts(e0, ch);
    CaptureInSession(e0.PreBuffering(ch), e0, ch, [], s, false, 0);
    assert [] + s == s;
  }

  /** A session started without pre-buffering sends every frame. */
  lemma LiveSessionSends<P>(e0: Engine<P>, ch: int, s: seq<int16>)
    requires e0.Valid()
    ensures e0.Transmitting(ch).Processed(s).Stopped().sent ==
            e0.sent + SessionPackets(e0.build, ch, s, 0, BufferAfter(s, e0.pcm))
  {
    SessionStarts(e0, ch);
    CaptureInSession(e0.Transmitting(ch), e0, ch, [], s, true, 0);
    assert [] + s == s;
    StoppingSends(e0.Transmitting(ch).Captured(s), e0.sent, ch, s, 0);
  }

  // ---- What the packets of a session say ----

  /** The position in the session of the i-th packet sent. */
  function Number(i: nat, built: nat): nat {
    if i < Min(built, PRE_BUFFER_CAP) then i else i - Min(built, PRE_BUFFER_CAP) + built
  }

  /** Positions rise by one, but for the jump over the frames beyond 15 that the pre-buffer dropped. */
  lemma NumbersRise(i: nat, built: nat)
    ensures Number(i, built) < Number(i + 1, built)
    ensures Number(i + 1, built) - Number(i, built) ==
            if i + 1 == PRE_BUFFER_CAP < built then built - PRE_BUFFER_CAP + 1 else 1
  {
  }

  lemma PacketHeader(channelID: int, flags: byte, seqNum: int, payload: seq<byte>)
    ensures Protocol.ParseAudioHeader(JsPacket(channelID, flags, seqNum, payload))
            == Some((Protocol.AudioPacketHeader(channelID % 0x100, flags, seqNum % 0x1_0000_0000), payload))
  {
    JsPacketIsGoPacket(channelID, flags, seqNum, payload);
    Protocol.ParseInvertsEncode(channelID % 0x100, flags % 0x100, seqNum % 0x1_0000_0000, payload);
  }

  /** The i-th packet is the frame at its position, or the final packet. */
  lemma PacketAt<P>(build: Builder<P>, ch: int, s: seq<int16>, built: nat, buffer: seq<byte>, i: nat)
    requires built <= |s| / 640 && i < |SessionPackets(build, ch, s, built, buffer)|
    ensures var packets, n := SessionPackets(build, ch, s, built, buffer), |s| / 640;
            if i == |packets| - 1 then Number(i, built) == n && packets[i] == FinalPacket(build, ch, |s|, buffer)
            else Number(i, built) < n && packets[i] == FramePacket(build, ch, s, Number(i, built))
  {
  }

  /** Parsed fields of a packet of the browser: channel, number modulo 2^32, and the two flags. */
  predicate Says(packet: seq<byte>, ch: int, number: nat, first: bool, last: bool) {
    var parsed := Protocol.ParseAudioHeader(packet);
    && parsed.Some?
    && parsed.value.0 == Protocol.AudioPacketHeader(ch % 0x100, (if first then Protocol.FLAG_AUDIO_FIRST else 0) as int
                           + (if last then Protocol.FLAG_AUDIO_LAST else 0) as int, number % 0x1_0000_0000)
  }

  lemma PacketSays(ch: int, number: nat, payload: seq<byte>, first: bool, last: bool)
    ensures var flags := (if first then 1 else 0) + if last then 2 else 0;
            Says(JsPacket(ch, flags, number, payload), ch, number, first, last)
  {
    PacketHeader(ch, (if first then 1 else 0) + (if last then 2 else 0), number, payload);
  }

  lemma FinalPacketSays(ch: int, length: nat, buffer: seq<byte>)
    ensures Says(FinalPacket(JsPacket, ch, length, buffer), ch, length / 640 + 1, 0 < length < 640, true)
  {
    if length % 640 == 0 {
      PacketSays(ch, length / 640 + 1, [0, 0], false, true);
    } else {
      PacketSays(ch, length / 640 + 1, buffer, length < 640, true);
    }
  }

  lemma FramePacketSays(ch: int, s: seq<int16>, k: nat)
    requires 640 * (k + 1) <= |s|
    ensures Says(FramePacket(JsPacket, ch, s, k), ch, k + 1, k == 0, false)
  {
    PacketSays(ch, k + 1, BytesOf(FrameOf(s, k)), k == 0, false);
  }

  /**
   Every packet parses on the server: packet i is numbered Number(i) + 1 modulo 2^32, the Last flag is on the final
   packet only, and the First flag on the first packet only, and there unless nothing was captured.
   */
  lemma SessionHeaders(ch: int, s: seq<int16>, built: nat, buffer: seq<byte>, i: nat)
    requires built <= |s| / 640 && i < |SessionPackets(JsPacket, ch, s, built, buffer)|
    ensures var packets := SessionPackets(JsPacket, ch, s, built, buffer);
            Says(packets[i], ch, Number(i, built) + 1, i == 0 && s != [], i == |packets| - 1)
  {
    PacketAt(JsPacket, ch, s, built, buffer, i);
    if i == |SessionPackets(JsPacket, ch, s, built, buffer)| - 1 {
      FinalPacketSays(ch, |s|, buffer);
    } else {
      FramePacketSays(ch, s, Number(i, built));
    }
  }

  function PayloadOf(packet: seq<byte>): seq<byte> {
    if |packet| < Protocol.AUDIO_HEADER_SIZE then [] else packet[Protocol.AUDIO_HEADER_SIZE..]
  }

  function Bodies(packets: seq<seq<byte>>): (r: seq<seq<byte>>)
    ensures |r| == |packets| && forall i :: 0 <= i < |r| ==> r[i] == PayloadOf(packets[i])
  {
    seq(|packets|, i requires 0 <= i < |packets| => PayloadOf(packets[i]))
  }

  /** The payloads of `packets` one after the other. */
  function Payloads(packets: seq<seq<byte>>): seq<byte> {
    Concat(Bodies(packets))
  }

  lemma BytesOfSlice(s: seq<int16>, i: nat, j: nat)
    requires i <= j <= |s|
    ensures BytesOf(s[i..j]) == BytesOf(s)[2 * i..2 * j]
  {
  }

  /** The bytes of blocks `lo` up to `hi`, each of 1280 bytes. */
  function Span<T>(whole: seq<T>, lo: nat, hi: nat): seq<T>
    requires lo <= hi && 1280 * hi <= |whole|
  {
    whole[1280 * lo..1280 * hi]
  }

  lemma SpanGrows<T>(whole: seq<T>, lo: nat, mid: nat, hi: nat)
    requires lo <= mid <= hi && 1280 * hi <= |whole|
    ensures Span(whole, lo, mid) + Span(whole, mid, hi) == Span(whole, lo, hi)
  {
  }

  lemma FrameBytes(s: seq<int16>, k: nat)
    requires 640 * (k + 1) <= |s|
    ensures BytesOf(FrameOf(s, k)) == Span(BytesOf(s), k, k + 1)
  {
  }

  lemma PayloadOfPacket(ch: int, flags: int, n: int, payload: seq<byte>)
    ensures PayloadOf(JsPacket(ch, flags, n, payload)) == payload
  {
  }

  /** The final packet's payload starts with the samples behind the last full frame. */
  lemma FinalPayload(ch: int, s: seq<int16>, pcm0: seq<byte>)
    requires |pcm0| == 2 * 640
    ensures BytesOf(s)[1280 * (|s| / 640)..] <= PayloadOf(FinalPacket(JsPacket, ch, |s|, BufferAfter(s, pcm0)))
  {
    var n := |s| / 640;
    BytesOfSlice(s, 640 * n, |s|);
    assert BytesOf(Residue(s)) == BytesOf(s)[1280 * n..];
    if |s| % 640 == 0 {
      assert BytesOf(s)[1280 * n..] == [];
    } else {
      PayloadOfPacket(ch, if n == 0 then 3 else 2, n + 1, BufferAfter(s, pcm0));
    }
  }

  lemma {:induction false} ConcatOfBlocks<T>(blocks: seq<seq<T>>, whole: seq<T>, lo: nat, hi: nat)
    requires lo <= hi && 1280 * hi <= |whole| && |blocks| == hi - lo
    requires forall i :: 0 <= i < |blocks| ==> blocks[i] == Span(whole, lo + i, lo + i + 1)
    ensures Concat(blocks) == Span(whole, lo, hi)
  {
    if lo < hi {
      ConcatOfBlocks(blocks[..|blocks| - 1], whole, lo, hi - 1);
      SpanGrows(whole, lo, hi - 1, hi);
    }
  }

  lemma PayloadsOfSpans(packets: seq<seq<byte>>, whole: seq<byte>, lo: nat, hi: nat)
    requires lo <= hi && 1280 * hi <= |whole| && |packets| == hi - lo
    requires forall i :: 0 <= i < |packets| ==> PayloadOf(packets[i]) == Span(whole, lo + i, lo + i + 1)
    ensures Payloads(packets) == Span(whole, lo, hi)
  {
    ConcatOfBlocks(Bodies(packets), whole, lo, hi);
  }

  lemma PayloadOfFrame(packet: seq<byte>, ch: int, s: seq<int16>, k: nat)
    requires 640 * (k + 1) <= |s| && packet == FramePacket(JsPacket, ch, s, k)
    ensures PayloadOf(packet) == Span(BytesOf(s), k, k + 1)
  {
    FrameBytes(s, k);
    PayloadOfPacket(ch, if k == 0 then 1 else 0, k + 1, BytesOf(FrameOf(s, k)));
  }

  lemma PayloadsOfPackets(packets: seq<seq<byte>>, ch: int, s: seq<int16>, lo: nat, hi: nat)
    requires lo <= hi && 640 * hi <= |s| && |packets| == hi - lo
    requires forall i :: 0 <= i < |packets| ==> packets[i] == FramePacket(JsPacket, ch, s, lo + i)
    ensures Payloads(packets) == Span(BytesOf(s), lo, hi)
  {
    forall i | 0 <= i < |packets| ensures PayloadOf(packets[i]) == Span(BytesOf(s), lo + i, lo + i + 1) {
      PayloadOfFrame(packets[i], ch, s, lo + i);
    }
    PayloadsOfSpans(packets, BytesOf(s), lo, hi);
  }

  lemma FramePayloads(ch: int, s: seq<int16>, lo: nat, hi: nat)
    requires lo <= hi && 640 * hi <= |s|
    ensures Payloads(FramePackets(JsPacket, ch, s, lo, hi)) == Span(BytesOf(s), lo, hi)
  {
    PayloadsOfPackets(FramePackets(JsPacket, ch, s, lo, hi), ch, s, lo, hi);
  }

  lemma PayloadsAppend(a: seq<seq<byte>>, b: seq<seq<byte>>)
    ensures Payloads(a + b) == Payloads(a) + Payloads(b)
  {
    assert Bodies(a + b) == Bodies(a) + Bodies(b);
    ConcatAppend(Bodies(a), Bodies(b));
  }

  /**
   Nothing captured is lost or altered but the dropped frames: the payloads before the final one are the captured bytes
   of the kept frames and of all frames since the grant. With at most 15 frames before the grant those are all frames.
   */
  lemma PayloadsAreTheCapture(ch: int, s: seq<int16>, built: nat)
    requires built <= |s| / 640
    ensures var n, kept, pcm := |s| / 640, Min(built, PRE_BUFFER_CAP), BytesOf(s);
            var frames := Payloads(FramePackets(JsPacket, ch, s, 0, kept) + FramePackets(JsPacket, ch, s, built, n));
            && frames == Span(pcm, 0, kept) + Span(pcm, built, n)
            && (built <= PRE_BUFFER_CAP ==> frames == Span(pcm, 0, n))
  {
    var n, kept := |s| / 640, Min(built, PRE_BUFFER_CAP);
    PayloadsAppend(FramePackets(JsPacket, ch, s, 0, kept), FramePackets(JsPacket, ch, s, built, n));
    FramePayloads(ch, s, 0, kept);
    FramePayloads(ch, s, built, n);
    SpanGrows(BytesOf(s), 0, built, n);
  }
}
