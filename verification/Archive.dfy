/** The recordings list and the files on disk: when one ending keeps them in step, told from the state before it. */
module Archive {
  import opened Bytes
  import Clients
  import opened FileNames
  import opened Messages
  import opened Recorder
  import Wav

  /** The record's URL is the one its keying was given. */
  predicate Titled(rec: VoiceRecording) {
    rec.fileURL == URL_PREFIX + FileName(rec.channelID, rec.callsign, rec.nanos)
  }

  predicate WellNamed(rec: VoiceRecording) {
    Titled(rec) && '/' !in rec.callsign
  }

  predicate AllNamed(recordings: seq<VoiceRecording>) {
    forall i :: 0 <= i < |recordings| ==> WellNamed(recordings[i])
  }

  /** The same callsign keyed the same channel in the same second. */
  predicate SameKeying(a: VoiceRecording, b: VoiceRecording) {
    a.channelID == b.channelID && a.callsign == b.callsign && Seconds(a.nanos) == Seconds(b.nanos)
  }

  /** Some recording of one list was keyed like one of the other. */
  predicate Namesakes(a: seq<VoiceRecording>, b: seq<VoiceRecording>) {
    exists i, j :: 0 <= i < |a| && 0 <= j < |b| && SameKeying(a[i], b[j])
  }

  /** Some recording that falls off a list of `max` has a namesake among those that stay. */
  predicate EvictsNamesake(recordings: seq<VoiceRecording>, max: nat) {
    |recordings| > max && Namesakes(recordings[..|recordings| - max], recordings[|recordings| - max..])
  }

  lemma NameOfNamed(a: VoiceRecording)
    requires WellNamed(a)
    ensures Base(a.fileURL) == FileName(a.channelID, a.callsign, a.nanos)
  {
    NameIsSeparatorFree(a.channelID, a.callsign, a.nanos);
    BaseOfUrl(FileName(a.channelID, a.callsign, a.nanos));
    BaseOfPlain(FileName(a.channelID, a.callsign, a.nanos));
  }

  lemma SameNameIffSameKeying(a: VoiceRecording, b: VoiceRecording)
    requires WellNamed(a) && WellNamed(b)
    ensures Base(a.fileURL) == Base(b.fileURL) <==> SameKeying(a, b)
  {
    NameOfNamed(a);
    NameOfNamed(b);
    NamesCollideIff(a.channelID, a.callsign, a.nanos, b.channelID, b.callsign, b.nanos);
  }

  lemma NamesakesShareAName(a: seq<VoiceRecording>, b: seq<VoiceRecording>, i: nat, j: nat)
    requires AllNamed(a) && AllNamed(b) && i < |a| && j < |b| && SameKeying(a[i], b[j])
    ensures !(Names(a) !! Names(b))
  {
    SameNameIffSameKeying(a[i], b[j]);
    assert a[i] in a && b[j] in b;
    assert Base(a[i].fileURL) in Names(a) && Base(a[i].fileURL) in Names(b);
  }

  lemma SharedNameHasNamesakes(a: seq<VoiceRecording>, b: seq<VoiceRecording>) returns (i: nat, j: nat)
    requires AllNamed(a) && AllNamed(b) && !(Names(a) !! Names(b))
    ensures i < |a| && j < |b| && SameKeying(a[i], b[j])
  {
    var n :| n in Names(a) && n in Names(b);
    i :| 0 <= i < |a| && Base(a[i].fileURL) == n;
    j :| 0 <= j < |b| && Base(b[j].fileURL) == n;
    SameNameIffSameKeying(a[i], b[j]);
  }

  lemma NamesMeetIffNamesakes(a: seq<VoiceRecording>, b: seq<VoiceRecording>)
    requires AllNamed(a) && AllNamed(b)
    ensures Names(a) !! Names(b) <==> !Namesakes(a, b)
  {
    if Namesakes(a, b) {
      var i, j :| 0 <= i < |a| && 0 <= j < |b| && SameKeying(a[i], b[j]);
      NamesakesShareAName(a, b, i, j);
    } else if !(Names(a) !! Names(b)) {
      var i, j := SharedNameHasNamesakes(a, b);
    }
  }

  lemma NewRecordingIsNamed(r: RecorderState, channelID: int, now: nat)
    requires channelID in r.activeTX && '/' !in r.activeTX[channelID].callsign && AllNamed(r.recordings)
    ensures AllNamed(r.recordings + [r.Recording(channelID, now)])
  {
  }

  lemma PartsAreNamed(all: seq<VoiceRecording>, cut: nat)
    requires AllNamed(all) && cut <= |all|
    ensures AllNamed(all[..cut]) && AllNamed(all[cut..])
  {
  }

  lemma SharedNamesAreNamesakes(all: seq<VoiceRecording>, max: nat)
    requires AllNamed(all)
    ensures EvictsSharedName(all, max) <==> EvictsNamesake(all, max)
  {
    if |all| > max {
      PartsAreNamed(all, |all| - max);
      NamesMeetIffNamesakes(all[..|all| - max], all[|all| - max..]);
    }
  }

  /**
   A completed recording keeps disk and list in step if and only if no recording about to be evicted has the channel,
   callsign and second of one that stays, the new one included.
   */
  lemma RecordingKeepsArchiveIffNoNamesakeEvicted(r: RecorderState, channelID: int, now: nat)
    requires r.Completes(channelID, true) && ArchiveMatchesList(r) && AllNamed(r.recordings)
    requires '/' !in r.activeTX[channelID].callsign
    ensures ArchiveMatchesList(r.Ended(channelID, now, true).0) <==>
              !EvictsNamesake(r.recordings + [r.Recording(channelID, now)], r.maxHistory)
  {
    var all := r.recordings + [r.Recording(channelID, now)];
    RecordingKeepsArchiveIff(r, channelID, now);
    PlainCallsignLandsInside(channelID, r.activeTX[channelID].callsign, now);
    NewRecordingIsNamed(r, channelID, now);
    SharedNamesAreNamesakes(all, r.maxHistory);
  }

  /** The recordings a new one pushes off the list. */
  function Evicted(r: RecorderState, rec: VoiceRecording): seq<VoiceRecording> {
    r.(recordings := r.recordings + [rec]).Dropped()
  }

  lemma EndedDisk(r: RecorderState, channelID: int, now: nat)
    requires r.Completes(channelID, true) && '/' !in r.activeTX[channelID].callsign
    ensures var rec := r.Recording(channelID, now);
            r.Ended(channelID, now, true).0.files ==
              r.files[Base(rec.fileURL) := Wav.WavFile(FORMAT, r.activeTX[channelID].pcm)] - Names(Evicted(r, rec))
  {
    NameOfNamed(r.Recording(channelID, now));
    PlainCallsignLandsInside(channelID, r.activeTX[channelID].callsign, now);
    StoredAndPruned(r, channelID, now);
  }

  lemma IsNamedIffNamesake(rec: VoiceRecording, others: seq<VoiceRecording>)
    requires AllNamed(others) && WellNamed(rec)
    ensures Base(rec.fileURL) in Names(others) <==> Namesakes(others, [rec])
  {
    NamesMeetIffNamesakes(others, [rec]);
    assert Names([rec]) == {Base(rec.fileURL)} by { assert rec in [rec]; }
  }

  /**
   A completed recording ends the list, and its file is on disk, holding the buffer, if and only if no recording it
   evicts was keyed alike.
   */
  lemma NewFileStaysIffNoNamesakeEvicted(r: RecorderState, channelID: int, now: nat)
    requires r.Completes(channelID, true) && AllNamed(r.recordings) && '/' !in r.activeTX[channelID].callsign
    requires 0 < r.maxHistory
    ensures var rec, after := r.Recording(channelID, now), r.Ended(channelID, now, true).0;
            && after.recordings != [] && after.recordings[|after.recordings| - 1] == rec
            && (Base(rec.fileURL) in after.files <==> !Namesakes(Evicted(r, rec), [rec]))
            && (Base(rec.fileURL) in after.files ==>
                  after.files[Base(rec.fileURL)] == Wav.WavFile(FORMAT, r.activeTX[channelID].pcm))
  {
    var rec := r.Recording(channelID, now);
    var all := r.recordings + [rec];
    assert r.Ended(channelID, now, true).0.recordings == Clients.Suffix(all, r.maxHistory);
    EndedDisk(r, channelID, now);
    NewRecordingIsNamed(r, channelID, now);
    PartsAreNamed(all, if |all| > r.maxHistory then |all| - r.maxHistory else 0);
    IsNamedIffNamesake(rec, Evicted(r, rec));
  }

  /** A recorder that keeps one recording, with 3200 bytes waiting on channel 1 and the same again just archived. */
  function SecondTake(callsign: string, pcm: seq<byte>, now: nat): RecorderState {
    var tx := TransmissionBuffer(1, "", callsign, "", now, pcm);
    RecorderState(true, 1, map[1 := tx], [], map[]).Ended(1, now, true).0.(activeTX := map[1 := tx])
  }

  lemma FirstTakeIsArchived(callsign: string, pcm: seq<byte>, now: nat)
    requires '/' !in callsign && |pcm| == MIN_RECORDED_BYTES
    ensures var r := SecondTake(callsign, pcm, now);
            && r.Completes(1, true) && r.maxHistory == 1 && r.recordings == [r.Recording(1, now)]
            && r.files.Keys == {Base(r.Recording(1, now).fileURL)}
  {
    var tx := TransmissionBuffer(1, "", callsign, "", now, pcm);
    var r0 := RecorderState(true, 1, map[1 := tx], [], map[]);
    assert Evicted(r0, r0.Recording(1, now)) == [];
    EndedDisk(r0, 1, now);
  }

  /**
   Two takes of one callsign within a second on a recorder that keeps one: the second stays listed, its file is gone.
   */
  lemma SecondTakeLosesItsFile(callsign: string, pcm: seq<byte>, now: nat)
    requires '/' !in callsign && |pcm| == MIN_RECORDED_BYTES
    ensures var r := SecondTake(callsign, pcm, now);
            var (after, rec) := r.Ended(1, now, true);
            && ArchiveMatchesList(r) && |r.recordings| == 1
            && rec.Some? && after.recordings == [rec.value] && after.files == map[] && !ArchiveMatchesList(after)
  {
    var r := SecondTake(callsign, pcm, now);
    var rec := r.Recording(1, now);
    FirstTakeIsArchived(callsign, pcm, now);
    EndedDisk(r, 1, now);
    assert Evicted(r, rec) == [rec];
    assert Names([rec]) == {Base(rec.fileURL)} by { assert rec in [rec]; }
  }
}
