/** Server-side recording: one growing buffer per channel, a bounded list and its files (internal/radio/recorder.go). */
module Recorder {
  import opened Wrappers
  import opened Bytes
  import Clients
  import opened FileNames
  import opened Messages
  import Wav

  const MAX_BUFFER_BYTES: nat := 16000 * 2 * 60
  const MIN_RECORDED_BYTES: nat := 3200

  datatype TransmissionBuffer = TransmissionBuffer(channelID: int, speakerID: string, callsign: string, role: string,
                                                   startTime: nat, pcm: seq<byte>)

  const FORMAT := Wav.FormatOf(16000, 1, 16)

  /**
   No file the recorder writes wraps a size field: the reader gets format and samples back unless the payload is odd.
   */
  lemma RecordedFilesAreReadable(pcm: seq<byte>)
    requires |pcm| <= MAX_BUFFER_BYTES
    ensures Wav.ReadWav(Wav.WavFile(FORMAT, pcm)) == if |pcm| % 2 == 0 then Some(Wav.Sound(FORMAT, pcm)) else None
    ensures FORMAT == Wav.Format(16000, 1, 16, 32000, 2) && FORMAT.byteRate == FORMAT.sampleRate * FORMAT.blockAlign
  {
    var f := FORMAT;
    assert f == Wav.Format(16000, 1, 16, 32000, 2);
    FileIsReadable(f, pcm);
  }

  lemma FileIsReadable(f: Wav.Format, pcm: seq<byte>)
    requires |pcm| <= MAX_BUFFER_BYTES
    ensures Wav.ReadWav(Wav.WavFile(f, pcm)) == if |pcm| % 2 == 0 then Some(Wav.Sound(f, pcm)) else None
  {
    Wav.WavRoundTrip(f, pcm);
    assert Wav.Readable(pcm) <==> |pcm| % 2 == 0;
  }

  /** The fields behind the recorder's lock, and the files on disk by their path from the storage directory. */
  datatype RecorderState = RecorderState(enabled: bool, maxHistory: nat, activeTX: map<int, TransmissionBuffer>,
                                         recordings: seq<VoiceRecording>, files: map<string, seq<byte>>) {
    function Started(channelID: int, speaker: Clients.Member, now: nat): RecorderState {
      if !enabled then this
      else
        var tx := TransmissionBuffer(channelID, speaker.id, speaker.callsign, speaker.role, now, []);
        this.(activeTX := activeTX[channelID := tx])
    }

    function Appended(channelID: int, payload: seq<byte>): RecorderState {
      if !enabled || channelID !in activeTX then this
      else
        var tx := activeTX[channelID];
        this.(activeTX := activeTX[channelID := tx.(pcm := Keep(tx.pcm, payload))])
    }

    /** The record an accepted buffer turns into. */
    function Recording(channelID: int, now: nat): VoiceRecording
      requires channelID in activeTX
    {
      var tx := activeTX[channelID];
      VoiceRecording(channelID, tx.callsign, tx.role, now, |tx.pcm| * 10 / 32000,
                     URL_PREFIX + FileName(channelID, tx.callsign, now), 44 + |tx.pcm|)
    }

    /** Whether OnTransmissionEnd produces a recording. */
    predicate Completes(channelID: int, writeOk: bool) {
      enabled && channelID in activeTX && |activeTX[channelID].pcm| >= MIN_RECORDED_BYTES && writeOk
    }

    function Dropped(): seq<VoiceRecording> {
      if |recordings| > maxHistory then recordings[..|recordings| - maxHistory] else []
    }

    /** Oldest recordings leave the list, and the file named by each one's URL leaves the disk. */
    function Pruned(): (r: RecorderState)
      ensures r == this.(recordings := Clients.Suffix(recordings, maxHistory), files := r.files)
    {
      this.(recordings := Clients.Suffix(recordings, maxHistory), files := files - Names(Dropped()))
    }

    function Stored(rec: VoiceRecording, path: string, wav: seq<byte>): RecorderState {
      this.(recordings := recordings + [rec], files := files[path := wav])
    }

    function Ended(channelID: int, now: nat, writeOk: bool): (r: (RecorderState, Option<VoiceRecording>))
      ensures r.0 == this.(activeTX := r.0.activeTX, recordings := r.0.recordings, files := r.0.files)
      ensures r.0.activeTX == if enabled then activeTX - {channelID} else activeTX
      ensures r.0.recordings == if r.1.Some? then Clients.Suffix(recordings + [r.1.value], maxHistory) else recordings
    {
      if !enabled || channelID !in activeTX then (this, None)
      else
        var r := this.(activeTX := activeTX - {channelID});
        if !Completes(channelID, writeOk) then (r, None)
        else
          var rec := Recording(channelID, now);
          var wav := Wav.WavFile(FORMAT, activeTX[channelID].pcm);
          (r.Stored(rec, Landing(FileName(channelID, activeTX[channelID].callsign, now)), wav).Pruned(), Some(rec))
    }
  }

  /** AppendAudio's ceiling: a payload that would pass it is skipped whole. */
  function Keep(pcm: seq<byte>, payload: seq<byte>): (r: seq<byte>)
    ensures |pcm| <= MAX_BUFFER_BYTES ==> |r| <= MAX_BUFFER_BYTES
  {
    if |pcm| + |payload| > MAX_BUFFER_BYTES then pcm else pcm + payload
  }

  function KeepAll(payloads: seq<seq<byte>>): (r: seq<byte>)
    ensures |r| <= MAX_BUFFER_BYTES
  {
    if payloads == [] then [] else Keep(KeepAll(payloads[..|payloads| - 1]), payloads[|payloads| - 1])
  }

  /** The buffer is the whole transmission exactly when the whole transmission fits. */
  lemma {:induction false} KeepsEverythingIffItFits(payloads: seq<seq<byte>>)
    ensures KeepAll(payloads) == Concat(payloads) <==> |Concat(payloads)| <= MAX_BUFFER_BYTES
    ensures |KeepAll(payloads)| <= |Concat(payloads)|
  {
    if payloads != [] {
      KeepsEverythingIffItFits(payloads[..|payloads| - 1]);
    }
  }

  function Names(recordings: seq<VoiceRecording>): set<string> {
    set r | r in recordings :: Base(r.fileURL)
  }

  function OnChannel(recordings: seq<VoiceRecording>, channelID: int): seq<VoiceRecording> {
    if recordings == [] then []
    else
      var n := |recordings| - 1;
      OnChannel(recordings[..n], channelID) + if recordings[n].channelID == channelID then [recordings[n]] else []
  }

  lemma {:induction false} OnChannelFilters(recordings: seq<VoiceRecording>, channelID: int)
    ensures forall r <- OnChannel(recordings, channelID) :: r in recordings && r.channelID == channelID
  {
    if recordings != [] {
      OnChannelFilters(recordings[..|recordings| - 1], channelID);
    }
  }

  lemma {:induction false} OnChannelGrows(recordings: seq<VoiceRecording>, channelID: int, i: nat)
    requires i < |recordings|
    ensures var before, all := OnChannel(recordings[..i], channelID), OnChannel(recordings, channelID);
            && before <= all
            && (recordings[i].channelID == channelID ==> |before| < |all| && all[|before|] == recordings[i])
  {
    var n := |recordings| - 1;
    if i < n {
      OnChannelGrows(recordings[..n], channelID, i);
      assert recordings[..n][..i] == recordings[..i];
    }
  }

  /**
   The filter keeps order: a recording of the channel comes right after the channel's earlier ones, and nothing else is
   kept.
   */
  lemma OnChannelKeepsOrder(recordings: seq<VoiceRecording>, channelID: int, i: nat)
    requires i < |recordings|
    ensures var before, all := OnChannel(recordings[..i], channelID), OnChannel(recordings, channelID);
            && before <= all
            && (recordings[i].channelID == channelID ==> |before| < |all| && all[|before|] == recordings[i])
    ensures forall r <- OnChannel(recordings, channelID) :: r in recordings && r.channelID == channelID
  {
    OnChannelGrows(recordings, channelID, i);
    OnChannelFilters(recordings, channelID);
  }

  /** The disk holds exactly the files of the listed recordings. */
  predicate ArchiveMatchesList(r: RecorderState) {
    r.files.Keys == Names(r.recordings)
  }

  lemma NamesAfterRecording(recordings: seq<VoiceRecording>, rec: VoiceRecording)
    ensures Names(recordings + [rec]) == Names(recordings) + {Base(rec.fileURL)}
  {
    NamesOfConcat(recordings, [rec]);
    assert rec in [rec];
  }

  /**
   Pruning keeps disk and list in step if and only if no evicted recording shares its file name with one that stays.
   */
  lemma PruningKeepsArchiveIffNamesDiffer(r: RecorderState)
    requires ArchiveMatchesList(r)
    ensures ArchiveMatchesList(r.Pruned()) <==> Names(r.Dropped()) !! Names(r.Pruned().recordings)
  {
  }

  /** Some recording that falls off a list of `max` shares its file name with one that stays. */
  predicate EvictsSharedName(all: seq<VoiceRecording>, max: nat) {
    |all| > max && !(Names(all[..|all| - max]) !! Names(all[|all| - max..]))
  }

  lemma StoredAndPruned(r: RecorderState, channelID: int, now: nat)
    requires r.Completes(channelID, true)
    ensures var tx, rec := r.activeTX[channelID], r.Recording(channelID, now);
            var path, wav := Landing(FileName(channelID, tx.callsign, now)), Wav.WavFile(FORMAT, tx.pcm);
            r.Ended(channelID, now, true).0 == r.(activeTX := r.activeTX - {channelID}).Stored(rec, path, wav).Pruned()
  {
  }

  lemma StoringKeepsArchive(r: RecorderState, rec: VoiceRecording, wav: seq<byte>)
    requires ArchiveMatchesList(r)
    ensures ArchiveMatchesList(r.Stored(rec, Base(rec.fileURL), wav))
  {
    NamesAfterRecording(r.recordings, rec);
  }

  lemma PruningLeavesStrays(r: RecorderState, path: string)
    requires path in r.files && '/' in path
    ensures path in r.Pruned().files && !ArchiveMatchesList(r.Pruned())
  {
  }

  /** The record gives the file's size, and the whole tenths of a second that the sound in it lasts. */
  ghost predicate TellsLength(rec: VoiceRecording, file: seq<byte>) {
    && rec.sizeBytes == |file|
    && (Wav.ReadWav(file).Some? ==>
          var sound := Wav.ReadWav(file).value;
          var rate := sound.format.byteRate;
          rec.durationTenths * rate <= 10 * |sound.pcm| < (rec.durationTenths + 1) * rate)
  }

  lemma TenthsOf(n: nat)
    ensures (n * 10 / 32000) * 32000 <= 10 * n < (n * 10 / 32000 + 1) * 32000
  {
  }

  /** Every completed ending stores a file whose length its record tells. */
  lemma EndingTellsLength(r: RecorderState, channelID: int, now: nat) returns (path: string, wav: seq<byte>)
    requires r.Completes(channelID, true) && |r.activeTX[channelID].pcm| <= MAX_BUFFER_BYTES
    ensures r.Ended(channelID, now, true).0 ==
            r.(activeTX := r.activeTX - {channelID}).Stored(r.Recording(channelID, now), path, wav).Pruned()
    ensures wav == Wav.WavFile(FORMAT, r.activeTX[channelID].pcm) && TellsLength(r.Recording(channelID, now), wav)
  {
    var tx := r.activeTX[channelID];
    path, wav := Landing(FileName(channelID, tx.callsign, now)), Wav.WavFile(FORMAT, tx.pcm);
    StoredAndPruned(r, channelID, now);
    RecordedFilesAreReadable(tx.pcm);
    TenthsOf(|tx.pcm|);
  }

  lemma StoringAndPruningKeepsArchiveIff(r: RecorderState, rec: VoiceRecording, path: string, wav: seq<byte>)
    requires ArchiveMatchesList(r) && ('/' !in path ==> path == Base(rec.fileURL))
    ensures ArchiveMatchesList(r.Stored(rec, path, wav).Pruned()) <==>
              '/' !in path && !EvictsSharedName(r.recordings + [rec], r.maxHistory)
  {
    if '/' in path {
      PruningLeavesStrays(r.Stored(rec, path, wav), path);
    } else {
      StoringKeepsArchive(r, rec, wav);
      PruningKeepsArchiveIffNamesDiffer(r.Stored(rec, path, wav));
    }
  }

  /**
   A completed recording leaves disk and list in step if and only if its file comes to lie in the storage directory and
   no recording it evicts shares its file name with one that stays, whatever the callsigns look like.
   */
  lemma RecordingKeepsArchiveIff(r: RecorderState, channelID: int, now: nat)
    requires r.Completes(channelID, true) && ArchiveMatchesList(r)
    ensures ArchiveMatchesList(r.Ended(channelID, now, true).0) <==>
              && LandsInside(channelID, r.activeTX[channelID].callsign, now)
              && !EvictsSharedName(r.recordings + [r.Recording(channelID, now)], r.maxHistory)
  {
    var tx, rec := r.activeTX[channelID], r.Recording(channelID, now);
    StoredAndPruned(r, channelID, now);
    LandsInsideIffUnderItsName(channelID, tx.callsign, now);
    StoringAndPruningKeepsArchiveIff(r.(activeTX := r.activeTX - {channelID}), rec,
      Landing(FileName(channelID, tx.callsign, now)), Wav.WavFile(FORMAT, tx.pcm));
  }

  lemma NamesOfConcat(a: seq<VoiceRecording>, b: seq<VoiceRecording>)
    ensures Names(a + b) == Names(a) + Names(b)
  {
  }

  class AudioRecorder {
    const maxHistory: nat
    const enabled: bool
    var activeTX: map<int, TransmissionBuffer>
    var recordings: seq<VoiceRecording>
    var files: map<string, seq<byte>>

    /**
     `maxRecordings` is MAX_RECORDINGS if it is set to a number, `disabled` whether DISABLE_RECORDINGS asks for it.
     */
    constructor (maxRecordings: Option<int>, disabled: bool)
      ensures var history := if maxRecordings.Some? && maxRecordings.value > 0 then maxRecordings.value else 50;
              State() == RecorderState(!disabled, history, map[], [], map[])
    {
      maxHistory := if maxRecordings.Some? && maxRecordings.value > 0 then maxRecordings.value else 50;
      enabled := !disabled;
      activeTX, recordings, files := map[], [], map[];
    }

    function State(): RecorderState
      reads this`activeTX, this`recordings, this`files
    {
      RecorderState(enabled, maxHistory, activeTX, recordings, files)
    }

    method OnTransmissionStart(channelID: int, speaker: Clients.Member, now: nat)
      modifies this
      ensures State() == old(State()).Started(channelID, speaker, now)
    {
      if !enabled {
        return;
      }
      var tx := TransmissionBuffer(channelID, speaker.id, speaker.callsign, speaker.role, now, []);
      activeTX := activeTX[channelID := tx];
    }

    method AppendAudio(channelID: int, payload: seq<byte>)
      modifies this
      ensures State() == old(State()).Appended(channelID, payload)
    {
      if !enabled {
        return;
      }
      if channelID !in activeTX {
        return;
      }
      var tx := activeTX[channelID];
      if |tx.pcm| + |payload| > MAX_BUFFER_BYTES {
        assert State() == old(State()).Appended(channelID, payload) by {
          assert activeTX[channelID := tx.(pcm := tx.pcm)] == activeTX;
        }
        return;
      }
      activeTX := activeTX[channelID := tx.(pcm := tx.pcm + payload)];
    }

    method OnTransmissionEnd(channelID: int, now: nat, writeOk: bool) returns (rec: Option<VoiceRecording>)
      modifies this
      ensures (State(), rec) == old(State()).Ended(channelID, now, writeOk)
    {
      if !enabled {
        return None;
      }
      if channelID !in activeTX {
        return None;
      }
      var tx := activeTX[channelID];
      activeTX := activeTX - {channelID};
      if |tx.pcm| < MIN_RECORDED_BYTES {
        return None;
      }
      var fileName := FileName(channelID, tx.callsign, now);
      var filePath := Landing(fileName);
      var wavBytes := Wav.EncodeWAV(16000, 1, 16, tx.pcm);
      if !writeOk {
        return None;
      }
      files := files[filePath := wavBytes];
      var recording := VoiceRecording(channelID, tx.callsign, tx.role, now, |tx.pcm| * 10 / 32000,
                                      URL_PREFIX + fileName, |wavBytes|);
      recordings := recordings + [recording];
      assert State() == old(State()).(activeTX := activeTX).Stored(recording, filePath, wavBytes);
      PruneOldest();
      StoredAndPruned(old(State()), channelID, now);
      return Some(recording);
    }

    /** The end of OnTransmissionEnd: evicted recordings leave the list and their files the disk. */
    method PruneOldest()
      modifies this`recordings, this`files
      ensures State() == old(State()).Pruned()
    {
      if |recordings| > maxHistory {
        var evicted := recordings[..|recordings| - maxHistory];
        for i := 0 to |evicted|
          invariant recordings == old(recordings)
          invariant files == old(files) - Names(evicted[..i])
        {
          files := files - {Base(evicted[i].fileURL)};
          NamesOfConcat(evicted[..i], [evicted[i]]);
          assert evicted[..i + 1] == evicted[..i] + [evicted[i]];
          assert Names([evicted[i]]) == {Base(evicted[i].fileURL)} by { assert evicted[i] in [evicted[i]]; }
        }
        assert evicted[..|evicted|] == evicted;
        recordings := recordings[|recordings| - maxHistory..];
      }
    }

    method GetRecordings(channelID: int) returns (res: seq<VoiceRecording>)
      ensures res == if channelID <= 0 then recordings else OnChannel(recordings, channelID)
    {
      if channelID <= 0 {
        return recordings;
      }
      res := [];
      for i := 0 to |recordings|
        invariant res == OnChannel(recordings[..i], channelID)
      {
        if recordings[i].channelID == channelID {
          res := res + [recordings[i]];
        }
        assert recordings[..i + 1][..i] == recordings[..i];
      }
      assert recordings[..|recordings|] == recordings;
    }
  }
}
