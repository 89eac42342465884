/** From the microphone to the archive: what a keying captures in the browser is what its WAV file holds. */
module EndToEnd {
  import opened Wrappers
  import opened Bytes
  import opened Clients
  import opened Messages
  import FileNames
  import opened Recorder
  import opened HubCore
  import opened HubRuns
  import opened AudioSession
  import Archive
  import HubDelivery
  import HubMail
  import HubObserver
  import Protocol
  import Wav

  /** The packets of a client reach the hub one after the other. */
  function Feed(k: Core, c: Client, packets: seq<seq<byte>>): (r: Core)
    requires c in k.members
    ensures r == k.(recorder := r.recorder)
  {
    if packets == [] then k else BinaryAudio(Feed(k, c, packets[..|packets| - 1]), c, packets[|packets| - 1])
  }

  /** Client `c` has just been granted the floor of channel `ch`: its recording buffer is there and empty. */
  ghost predicate JustGranted(k: Core, c: Client, ch: int) {
    && Placed(k) && c in k.members && k.members[c].channelID == ch && k.channels[ch].floor.speaker == c
    && k.recorder.enabled && ch in k.recorder.activeTX && k.recorder.activeTX[ch].pcm == []
  }

  /** A grant, first or repeated, leaves the hub in that state. */
  lemma PressJustGrants(k: Core, c: Client, now: nat, writeOk: bool)
    requires Placed(k) && c in k.members && k.recorder.enabled && k.Requested(c, now).1.granted
    ensures JustGranted(PTTDown(k, c, now, writeOk), c, k.members[c].channelID)
  {
    PressKeepsPlacement(k, c, now, writeOk);
  }

  /** An accepted packet adds its payload, unless that would pass the cap. */
  lemma AcceptedPacketIsKept(k: Core, c: Client, ch: int, packet: seq<byte>)
    requires c in k.members && k.members[c].channelID == ch && Accepts(k, c, packet)
    requires k.recorder.enabled && ch in k.recorder.activeTX
    ensures var r := BinaryAudio(k, c, packet).recorder;
            && r == k.recorder.(activeTX := r.activeTX) && ch in r.activeTX
            && r.activeTX[ch] == k.recorder.activeTX[ch].(pcm := Keep(k.recorder.activeTX[ch].pcm, PayloadOf(packet)))
  {
    assert k.recorder.activeTX[ch].pcm + [] == k.recorder.activeTX[ch].pcm;
  }

  lemma {:induction false} AcceptedPacketsAreKept(k: Core, c: Client, ch: int, packets: seq<seq<byte>>)
    requires JustGranted(k, c, ch) && forall p <- packets :: Accepts(k, c, p)
    ensures var r := Feed(k, c, packets).recorder;
            && r == k.recorder.(activeTX := r.activeTX) && ch in r.activeTX
            && r.activeTX[ch] == k.recorder.activeTX[ch].(pcm := KeepAll(Bodies(packets)))
  {
    if packets == [] {
      assert Bodies(packets) == [];
    } else {
      var n := |packets| - 1;
      var front := packets[..n];
      AcceptedPacketsAreKept(k, c, ch, front);
      var k1 := Feed(k, c, front);
      assert packets[n] in packets && Accepts(k1, c, packets[n]);
      AcceptedPacketIsKept(k1, c, ch, packets[n]);
      assert Bodies(packets) == Bodies(front) + [PayloadOf(packets[n])];
    }
  }

  /** The speaker's own packets are all accepted on a channel whose number fits in one byte. */
  lemma SessionPacketsAreAccepted(k: Core, c: Client, ch: int, s: seq<int16>, built: nat, buffer: seq<byte>,
                                  packets: seq<seq<byte>>, i: nat)
    requires JustGranted(k, c, ch) && 0 <= ch < 256
    requires built <= |s| / 640 && packets == SessionPackets(JsPacket, ch, s, built, buffer) && i < |packets|
    ensures Accepts(k, c, packets[i])
  {
    SessionPacketNamesChannel(ch, s, built, buffer, packets, i);
    NamedPacketIsAccepted(k, c, ch, packets[i]);
  }

  lemma FitsInOneByte(ch: int)
    ensures 0 <= ch < 256 ==> ch % 256 == ch
  {
  }

  lemma SessionPacketNamesChannel(ch: int, s: seq<int16>, built: nat, buffer: seq<byte>,
                                  packets: seq<seq<byte>>, i: nat)
    requires built <= |s| / 640 && packets == SessionPackets(JsPacket, ch, s, built, buffer) && i < |packets|
    ensures var parsed := Protocol.ParseAudioHeader(packets[i]);
            parsed.Some? && (0 <= ch < 256 ==> parsed.value.0.channelID == ch)
  {
    SessionHeaders(ch, s, built, buffer, i);
    FitsInOneByte(ch);
  }

  lemma NamedPacketIsAccepted(k: Core, c: Client, ch: int, packet: seq<byte>)
    requires JustGranted(k, c, ch) && Protocol.ParseAudioHeader(packet).Some?
    requires Protocol.ParseAudioHeader(packet).value.0.channelID == ch
    ensures Accepts(k, c, packet)
  {
    HubDelivery.PacketsStayOnOwnChannel(k, c, packet);
  }

  /** The browser sets First, Last, both or neither: never the bit of an All-Call. */
  lemma SessionPacketIsNoAllCall(ch: int, s: seq<int16>, built: nat, buffer: seq<byte>, packets: seq<seq<byte>>, i: nat)
    requires built <= |s| / 640 && packets == SessionPackets(JsPacket, ch, s, built, buffer) && i < |packets|
    ensures !HubDelivery.AsksEveryone(packets[i])
  {
    SessionHeaders(ch, s, built, buffer, i);
    FlagsOf(packets[i]);
    assert packets[i][3] in {0, 1, 2, 3};
  }

  lemma FlagsOf(packet: seq<byte>)
    requires Protocol.ParseAudioHeader(packet).Some?
    ensures |packet| >= 8 && Protocol.ParseAudioHeader(packet).value.0.flags == packet[3]
  {
  }

  /**
   Every packet of a keying that its speaker sends reaches each other client of the channel once, and nobody else: what
   the browser marks as first or last is never taken for an All-Call.
   */
  lemma SessionStaysOnChannel(mail: HubMail.Mail, k: Core, c: Client, ch: int, s: seq<int16>, built: nat,
                              buffer: seq<byte>, i: nat, d: Client)
    requires Placed(k) && mail.boxes.Keys == k.members.Keys && c in k.members && d in k.members
    requires k.members[c].channelID == ch && k.channels[ch].floor.speaker == c && 0 <= ch < 256
    requires built <= |s| / 640 && i < |SessionPackets(JsPacket, ch, s, built, buffer)|
    ensures var packet := SessionPackets(JsPacket, ch, s, built, buffer)[i];
            HubMail.BinaryAudio(mail, k, c, packet).boxes[d] ==
              if d != c && k.members[d].channelID == ch then mail.boxes[d].Enqueue(Audio(packet)) else mail.boxes[d]
  {
    var packets := SessionPackets(JsPacket, ch, s, built, buffer);
    SessionPacketNamesChannel(ch, s, built, buffer, packets, i);
    HubDelivery.PacketsStayOnOwnChannel(k, c, packets[i]);
    SessionPacketIsNoAllCall(ch, s, built, buffer, packets, i);
    HubDelivery.PacketReachesChannelOnce(mail, k, c, packets[i], d);
  }

  /** What the recorder hears of a session: kept frames, frames since the grant, and the final packet. */
  lemma SessionBodies(ch: int, s: seq<int16>, built: nat, buffer: seq<byte>)
    requires built <= |s| / 640
    ensures var n, pcm := |s| / 640, BytesOf(s);
            Concat(Bodies(SessionPackets(JsPacket, ch, s, built, buffer))) ==
              Span(pcm, 0, Min(built, PRE_BUFFER_CAP)) + Span(pcm, built, n)
                + PayloadOf(FinalPacket(JsPacket, ch, |s|, buffer))
  {
    var frames := FramePackets(JsPacket, ch, s, 0, Min(built, PRE_BUFFER_CAP))
      + FramePackets(JsPacket, ch, s, built, |s| / 640);
    var last := FinalPacket(JsPacket, ch, |s|, buffer);
    PayloadsAppend(frames, [last]);
    assert Bodies([last]) == [PayloadOf(last)];
    assert Concat(Bodies([last])) == PayloadOf(last);
    PayloadsAreTheCapture(ch, s, built);
  }

  lemma FinalPayloadLength(ch: int, length: nat, buffer: seq<byte>)
    requires |buffer| == 2 * 640
    ensures |PayloadOf(FinalPacket(JsPacket, ch, length, buffer))| == if length % 640 == 0 then 2 else 1280
  {
    PayloadOfPacket(ch, 2, length / 640 + 1, [0, 0]);
    PayloadOfPacket(ch, if length < 640 then 3 else 2, length / 640 + 1, buffer);
  }

  /** With at most 15 frames before the grant, the recorder hears the whole capture and less than a frame more. */
  lemma WholeCaptureIsHeard(ch: int, s: seq<int16>, built: nat, pcm0: seq<byte>)
    requires built <= |s| / 640 && built <= PRE_BUFFER_CAP && |pcm0| == 2 * 640
    ensures var heard := Concat(Bodies(SessionPackets(JsPacket, ch, s, built, BufferAfter(s, pcm0))));
            BytesOf(s) <= heard && |heard| == 1280 * (|s| / 640) + if |s| % 640 == 0 then 2 else 1280
  {
    var n, pcm := |s| / 640, BytesOf(s);
    SessionBodies(ch, s, built, BufferAfter(s, pcm0));
    SpanGrows(pcm, 0, built, n);
    FinalPayload(ch, s, pcm0);
    FinalPayloadLength(ch, |s|, BufferAfter(s, pcm0));
    assert pcm == Span(pcm, 0, n) + pcm[1280 * n..];
  }

  /** The packets of a keying, fed to the hub by the speaker, leave the whole capture in the recorder's buffer. */
  lemma KeyingIsBuffered(k: Core, c: Client, ch: int, s: seq<int16>, built: nat, pcm0: seq<byte>)
    requires JustGranted(k, c, ch) && 0 <= ch < 256 && |pcm0| == 2 * 640
    requires built <= |s| / 640 && built <= PRE_BUFFER_CAP && 1280 * (|s| / 640 + 1) <= MAX_BUFFER_BYTES
    ensures var r := Feed(k, c, SessionPackets(JsPacket, ch, s, built, BufferAfter(s, pcm0))).recorder;
            && r == k.recorder.(activeTX := r.activeTX) && ch in r.activeTX
               && r.activeTX[ch].(pcm := []) == k.recorder.activeTX[ch]
            && BytesOf(s) <= r.activeTX[ch].pcm
            && |r.activeTX[ch].pcm| == 1280 * (|s| / 640) + if |s| % 640 == 0 then 2 else 1280
  {
    var buffer := BufferAfter(s, pcm0);
    var packets := SessionPackets(JsPacket, ch, s, built, buffer);
    forall i | 0 <= i < |packets| ensures Accepts(k, c, packets[i]) {
      SessionPacketsAreAccepted(k, c, ch, s, built, buffer, packets, i);
    }
    AcceptedPacketsAreKept(k, c, ch, packets);
    WholeCaptureIsHeard(ch, s, built, pcm0);
    KeepsEverythingIffItFits(Bodies(packets));
  }

  lemma RecordedLength(length: nat)
    requires 1600 <= length
    ensures var n := 1280 * (length / 640) + if length % 640 == 0 then 2 else 1280;
            n % 2 == 0 && MIN_RECORDED_BYTES <= n < 2 * length + 1280
  {
  }

  /**
   `file` is 16 kHz mono 16-bit sound that starts with every sample of `captured` and goes on for less than a frame.
   */
  ghost predicate HoldsCapture(file: seq<byte>, captured: seq<int16>) {
    exists pcm ::
      && Wav.ReadWav(file) == Some(Wav.Sound(Wav.Format(16000, 1, 16, 32000, 2), pcm))
      && BytesOf(captured) <= pcm && |pcm| < 2 * |captured| + 1280
  }

  /** The duration is the captured samples' in whole tenths of a second, give or take the last frame's filling. */
  predicate LastsAsLong(rec: VoiceRecording, samples: nat) {
    samples < (rec.durationTenths + 1) * 1600 && rec.durationTenths * 1600 < samples + 640
  }

  /**
   A keying granted within its first 15 frames and shorter than a minute is buffered whole and ready to be archived.
   */
  lemma KeyingCompletes(k: Core, c: Client, ch: int, e0: Engine<seq<byte>>, s1: seq<int16>, s2: seq<int16>,
                        sent: seq<seq<byte>>)
    requires JustGranted(k, c, ch) && 0 <= ch < 256
    requires e0.Valid() && !e0.isTransmitting && e0.build == JsPacket && Keying(e0, ch, s1, s2).sent == e0.sent + sent
    requires |s1| / 640 <= 15 && 1600 <= |s1 + s2| && 1280 * (|s1 + s2| / 640 + 1) <= 1_920_000
    ensures var r := Feed(k, c, sent).recorder;
            && r == k.recorder.(activeTX := r.activeTX) && r.Completes(ch, true)
               && r.activeTX[ch].(pcm := []) == k.recorder.activeTX[ch]
            && HoldsCapture(Wav.WavFile(FORMAT, r.activeTX[ch].pcm), s1 + s2)
            && forall now: nat :: LastsAsLong(r.Recording(ch, now), |s1 + s2|)
  {
    KeyingSendsSession(ch, e0, s1, s2, sent);
    SessionCompletes(k, c, ch, s1 + s2, |s1| / 640, e0.pcm, sent);
  }

  lemma SessionCompletes(k: Core, c: Client, ch: int, s: seq<int16>, built: nat, pcm0: seq<byte>, sent: seq<seq<byte>>)
    requires JustGranted(k, c, ch) && 0 <= ch < 256 && |pcm0| == 2 * 640
    requires built <= |s| / 640 && built <= PRE_BUFFER_CAP
    requires 1600 <= |s| && 1280 * (|s| / 640 + 1) <= MAX_BUFFER_BYTES
    requires sent == SessionPackets(JsPacket, ch, s, built, BufferAfter(s, pcm0))
    ensures var r := Feed(k, c, sent).recorder;
            && r == k.recorder.(activeTX := r.activeTX) && r.Completes(ch, true)
            && r.activeTX[ch].(pcm := []) == k.recorder.activeTX[ch]
            && HoldsCapture(Wav.WavFile(FORMAT, r.activeTX[ch].pcm), s)
            && forall now: nat :: LastsAsLong(r.Recording(ch, now), |s|)
  {
    KeyingIsBuffered(k, c, ch, s, built, pcm0);
    BufferIsArchived(Feed(k, c, sent).recorder, ch, s);
  }

  /**
   The speaker of `fed` lets go: its keying becomes the newest recording, as long as the capture, and the file is on
   disk, holding the capture, if and only if the ending evicts no recording of the same channel, callsign and second.
   */
  ghost predicate ReleaseArchives(fed: Core, c: Client, ch: int, now: nat, captured: seq<int16>)
    requires c in fed.members
  {
    fed.recorder.Completes(ch, true)
    && var rec, after := fed.recorder.Recording(ch, now), PTTUp(fed, c, now, true).recorder;
       && after.recordings != [] && after.recordings[|after.recordings| - 1] == rec && LastsAsLong(rec, |captured|)
       && FileNames.Base(rec.fileURL) == FileNames.FileName(ch, fed.recorder.activeTX[ch].callsign, now)
       && (FileNames.Base(rec.fileURL) in after.files <==>
             !Archive.Namesakes(Archive.Evicted(fed.recorder, rec), [rec]))
       && (FileNames.Base(rec.fileURL) in after.files ==>
             HoldsCapture(after.files[FileNames.Base(rec.fileURL)], captured))
  }

  lemma CompletedIsArchived(fed: Core, c: Client, ch: int, now: nat, captured: seq<int16>)
    requires Placed(fed) && c in fed.members && fed.members[c].channelID == ch && fed.channels[ch].floor.speaker == c
    requires fed.recorder.Completes(ch, true)
    requires HoldsCapture(Wav.WavFile(FORMAT, fed.recorder.activeTX[ch].pcm), captured)
    requires LastsAsLong(fed.recorder.Recording(ch, now), |captured|)
    requires 0 < fed.recorder.maxHistory && Archive.AllNamed(fed.recorder.recordings)
    requires '/' !in fed.recorder.activeTX[ch].callsign
    ensures ReleaseArchives(fed, c, ch, now, captured)
  {
    HubObserver.LetGoOutcome(fed, c, now, true);
    assert PTTUp(fed, c, now, true).recorder == fed.recorder.Ended(ch, now, true).0;
    Archive.NewFileStaysIffNoNamesakeEvicted(fed.recorder, ch, now);
    Archive.NameOfNamed(fed.recorder.Recording(ch, now));
  }

  /**
   End to end: a keying of less than a minute, granted within its first 15 frames, whose packets `sent` reach the hub
   from its speaker, is archived whole when its speaker lets go, unless that evicts the file in the same moment.
   */
  lemma KeyingReachesTheArchive(k: Core, c: Client, ch: int, e0: Engine<seq<byte>>, s1: seq<int16>, s2: seq<int16>,
                                sent: seq<seq<byte>>, now: nat)
    requires JustGranted(k, c, ch) && 0 <= ch < 256
    requires e0.Valid() && !e0.isTransmitting && e0.build == JsPacket && Keying(e0, ch, s1, s2).sent == e0.sent + sent
    requires |s1| / 640 <= 15 && 1600 <= |s1 + s2| && 1280 * (|s1 + s2| / 640 + 1) <= 1_920_000
    requires 0 < k.recorder.maxHistory && Archive.AllNamed(k.recorder.recordings)
    requires '/' !in k.recorder.activeTX[ch].callsign
    ensures ReleaseArchives(Feed(k, c, sent), c, ch, now, s1 + s2)
  {
    KeyingCompletes(k, c, ch, e0, s1, s2, sent);
    FeedKeepsPlacement(k, c, sent);
    CompletedIsArchived(Feed(k, c, sent), c, ch, now, s1 + s2);
  }

  lemma FeedKeepsPlacement(k: Core, c: Client, packets: seq<seq<byte>>)
    requires Placed(k) && c in k.members
    ensures Placed(Feed(k, c, packets))
  {
    AsidesKeepPlacement(k, Feed(k, c, packets));
  }

  lemma KeyingSendsSession(ch: int, e0: Engine<seq<byte>>, s1: seq<int16>, s2: seq<int16>, sent: seq<seq<byte>>)
    requires e0.Valid() && !e0.isTransmitting && e0.build == JsPacket && Keying(e0, ch, s1, s2).sent == e0.sent + sent
    ensures |e0.pcm| == 2 * 640
    ensures sent == SessionPackets(JsPacket, ch, s1 + s2, |s1| / 640, BufferAfter(s1 + s2, e0.pcm))
  {
    KeyingPackets(ch, e0, s1, s2, sent);
  }

  lemma KeyingPackets<P>(ch: int, e0: Engine<P>, s1: seq<int16>, s2: seq<int16>, sent: seq<P>)
    requires e0.Valid() && !e0.isTransmitting && Keying(e0, ch, s1, s2).sent == e0.sent + sent
    ensures sent == SessionPackets(e0.build, ch, s1 + s2, |s1| / 640, BufferAfter(s1 + s2, e0.pcm))
  {
    KeyingSends(e0, ch, s1, s2, []);
    SameTail(e0.sent, sent, SessionPackets(e0.build, ch, s1 + s2, |s1| / 640, BufferAfter(s1 + s2, e0.pcm)));
  }

  lemma TenthsOfCapture(bytes: nat, samples: nat, tenths: nat)
    requires 2 * samples <= bytes < 2 * samples + 1280 && tenths == bytes * 10 / 32000
    ensures samples < (tenths + 1) * 1600 && tenths * 1600 < samples + 640
  {
  }

  lemma BufferIsArchived(r: RecorderState, ch: int, s: seq<int16>)
    requires r.enabled && ch in r.activeTX && 1600 <= |s| && 1280 * (|s| / 640 + 1) <= MAX_BUFFER_BYTES
    requires |r.activeTX[ch].pcm| == 1280 * (|s| / 640) + if |s| % 640 == 0 then 2 else 1280
    requires BytesOf(s) <= r.activeTX[ch].pcm
    ensures r.Completes(ch, true) && HoldsCapture(Wav.WavFile(FORMAT, r.activeTX[ch].pcm), s)
    ensures forall now: nat :: LastsAsLong(r.Recording(ch, now), |s|)
  {
    var pcm := r.activeTX[ch].pcm;
    RecordedLength(|s|);
    RecordedFilesAreReadable(pcm);
    TenthsOfCapture(|pcm|, |s|, |pcm| * 10 / 32000);
    assert Wav.ReadWav(Wav.WavFile(FORMAT, pcm)) == Some(Wav.Sound(Wav.Format(16000, 1, 16, 32000, 2), pcm));
    forall now: nat ensures LastsAsLong(r.Recording(ch, now), |s|) {
    }
  }

  lemma SameTail<T>(a: seq<T>, b: seq<T>, c: seq<T>)
    requires a + b == a + c
    ensures b == c
  {
    assert b == (a + b)[|a|..];
  }
}
