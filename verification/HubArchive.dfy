/** The disk in every run of the hub: which files are there and what is in them, told from the log alone. */
module HubArchive {
  import opened Archive
  import opened Bytes
  import opened Clients
  import opened HubCore
  import opened HubLog
  import opened HubObserver
  import opened HubRuns
  import opened HubSystem
  import opened Messages
  import opened Recorder
  import opened Wrappers
  import FileNames
  import Wav

  // ---- Which recordings have their file ----

  function NameOf(rec: VoiceRecording): string {
    FileNames.Base(rec.fileURL)
  }

  /** No later recording has the file name of recording `i`. */
  predicate IsLatest(all: seq<VoiceRecording>, i: nat) {
    i < |all| && forall j :: i < j < |all| ==> NameOf(all[j]) != NameOf(all[i])
  }

  /**
   Recording `i` of all those ever made, on a list of `max`: the latest of its name, still listed, and with no earlier
   recording of that name that has fallen off the list since recording `i` was made.
   */
  predicate Survives(all: seq<VoiceRecording>, i: nat, max: nat) {
    && IsLatest(all, i)
    && forall j :: 0 <= j <= i && NameOf(all[j]) == NameOf(all[i]) ==> j + max < i || |all| <= j + max
  }

  /** Exactly the surviving recordings have a file, and it is the WAV file of what was heard for that recording. */
  ghost predicate DiskHolds(files: map<string, seq<byte>>, all: seq<VoiceRecording>, takes: seq<seq<seq<byte>>>,
                            max: nat) {
    && |takes| == |all|
    && (forall n <- files :: exists i :: 0 <= i < |all| && Survives(all, i, max) && NameOf(all[i]) == n)
    && (forall i :: 0 <= i < |all| && Survives(all, i, max) ==>
          NameOf(all[i]) in files && files[NameOf(all[i])] == Wav.WavFile(FORMAT, KeepAll(takes[i])))
  }

  /** One more recording takes the file of those named like it, and that of those named like the one it evicts. */
  lemma SurvivesOneMore(all: seq<VoiceRecording>, rec: VoiceRecording, max: nat, i: nat)
    requires i <= |all| && 0 < max
    ensures var more := all + [rec];
            Survives(more, i, max) <==>
              && (i < |all| ==> Survives(all, i, max) && NameOf(rec) != NameOf(all[i]))
              && (max <= |all| ==> NameOf(all[|all| - max]) != NameOf(more[i]))
  {
    var more := all + [rec];
    assert forall j :: 0 <= j < |all| ==> more[j] == all[j];
    assert more[|all|] == rec;
    if i < |all| && Survives(more, i, max) {
      assert forall j :: i < j < |all| ==> NameOf(more[j]) == NameOf(all[j]);
      assert forall j :: 0 <= j <= i ==> NameOf(more[j]) == NameOf(all[j]);
    }
  }

  /** The name of the one file a new recording pushes off the disk. */
  function PushedOut(all: seq<VoiceRecording>, max: nat): set<string>
    requires 0 < max
  {
    if max <= |all| then {NameOf(all[|all| - max])} else {}
  }

  /** The disk once `rec` was stored under its name with the file `wav` and the list pruned. */
  function DiskAfter(files: map<string, seq<byte>>, all: seq<VoiceRecording>, max: nat, rec: VoiceRecording,
                     wav: seq<byte>): map<string, seq<byte>>
    requires 0 < max
  {
    files[NameOf(rec) := wav] - PushedOut(all, max)
  }

  lemma SurvivorHasFile(files: map<string, seq<byte>>, all: seq<VoiceRecording>, takes: seq<seq<seq<byte>>>, max: nat,
                        rec: VoiceRecording, take: seq<seq<byte>>, i: nat)
    requires 0 < max && DiskHolds(files, all, takes, max) && i <= |all| && Survives(all + [rec], i, max)
    ensures var name := NameOf((all + [rec])[i]);
            var disk := DiskAfter(files, all, max, rec, Wav.WavFile(FORMAT, KeepAll(take)));
            name in disk && disk[name] == Wav.WavFile(FORMAT, KeepAll((takes + [take])[i]))
  {
    SurvivesOneMore(all, rec, max, i);
  }

  /** Which recording a file on disk belongs to once `rec` was stored. */
  lemma OwnerOf(files: map<string, seq<byte>>, all: seq<VoiceRecording>, takes: seq<seq<seq<byte>>>, max: nat,
                rec: VoiceRecording, name: string) returns (i: nat)
    requires DiskHolds(files, all, takes, max) && (name in files || name == NameOf(rec))
    ensures i <= |all| && NameOf((all + [rec])[i]) == name
    ensures i < |all| ==> Survives(all, i, max) && name != NameOf(rec)
  {
    if name == NameOf(rec) {
      i := |all|;
    } else {
      i :| 0 <= i < |all| && Survives(all, i, max) && NameOf(all[i]) == name;
    }
  }

  lemma FileHasSurvivor(files: map<string, seq<byte>>, all: seq<VoiceRecording>, takes: seq<seq<seq<byte>>>, max: nat,
                        rec: VoiceRecording, wav: seq<byte>, name: string)
    requires 0 < max && DiskHolds(files, all, takes, max) && name in DiskAfter(files, all, max, rec, wav)
    ensures exists i :: 0 <= i < |all + [rec]| && Survives(all + [rec], i, max) && NameOf((all + [rec])[i]) == name
  {
    var i := OwnerOf(files, all, takes, max, rec, name);
    SurvivesOneMore(all, rec, max, i);
  }

  lemma DiskAfterRecording(files: map<string, seq<byte>>, all: seq<VoiceRecording>, takes: seq<seq<seq<byte>>>,
                           max: nat, rec: VoiceRecording, take: seq<seq<byte>>)
    requires 0 < max && DiskHolds(files, all, takes, max)
    ensures var disk := DiskAfter(files, all, max, rec, Wav.WavFile(FORMAT, KeepAll(take)));
            DiskHolds(disk, all + [rec], takes + [take], max)
  {
    var wav := Wav.WavFile(FORMAT, KeepAll(take));
    forall i | 0 <= i < |all + [rec]| && Survives(all + [rec], i, max)
      ensures var name, disk := NameOf((all + [rec])[i]), DiskAfter(files, all, max, rec, wav);
              name in disk && disk[name] == Wav.WavFile(FORMAT, KeepAll((takes + [take])[i]))
    {
      SurvivorHasFile(files, all, takes, max, rec, take, i);
    }
    forall name | name in DiskAfter(files, all, max, rec, wav)
      ensures exists i :: 0 <= i < |all + [rec]| && Survives(all + [rec], i, max) && NameOf((all + [rec])[i]) == name
    {
      FileHasSurvivor(files, all, takes, max, rec, wav, name);
    }
  }

  // ---- The hub's steps ----

  /** The file of the recording lies in the storage directory. */
  predicate IsInside(rec: VoiceRecording) {
    FileNames.LandsInside(rec.channelID, rec.callsign, rec.nanos)
  }

  predicate AllInside(all: seq<VoiceRecording>) {
    forall i :: 0 <= i < |all| ==> IsInside(all[i])
  }

  /** The log tells the disk. */
  ghost predicate DiskSeen(k: Core, seen: Seen) {
    0 < k.recorder.maxHistory && DiskHolds(k.recorder.files, seen.recorded, seen.takes, k.recorder.maxHistory)
  }

  /** Some file lies outside the storage directory or below it. */
  ghost predicate HasStray(files: map<string, seq<byte>>) {
    exists path :: path in files && '/' in path
  }

  ghost predicate SameDisk(k: Core, seen: Seen, r: Core, after: Seen) {
    && r.recorder.maxHistory == k.recorder.maxHistory && r.recorder.files == k.recorder.files
    && after.recorded == seen.recorded && after.takes == seen.takes
  }

  /** The keying of busy channel `id` ends. */
  ghost predicate KeyingEnds(k: Core, seen: Seen, r: Core, after: Seen, id: int, now: nat, ok: bool) {
    && id in k.channels && k.channels[id].floor.isBusy
    && r.recorder.maxHistory == k.recorder.maxHistory && r.recorder.files == k.recorder.Ended(id, now, ok).0.files
    && SeesRecordingEnd(k, seen, after, id, now, ok)
  }

  lemma PressAtDisk(k: Core, seen: Seen, c: Client, now: nat, ok: bool)
    requires Placed(k) && c in k.members
    ensures var r, after := PTTDown(k, c, now, ok), SeenPress(seen, k, c, now, ok);
            SameDisk(k, seen, r, after) || KeyingEnds(k, seen, r, after, k.members[c].channelID, now, ok)
  {
    PressOutcome(k, c, now, ok);
  }

  lemma LetGoAtDisk(k: Core, seen: Seen, c: Client, now: nat, ok: bool)
    requires Placed(k) && c in k.members
    ensures var r, after := PTTUp(k, c, now, ok), SeenLetGo(seen, k, c, now, ok);
            SameDisk(k, seen, r, after) || KeyingEnds(k, seen, r, after, k.members[c].channelID, now, ok)
  {
    if k.channels[k.members[c].channelID].floor.speaker == c {
      LetGoOutcome(k, c, now, ok);
    }
  }

  lemma ExpireAtDisk(k: Core, seen: Seen, id: int, t: nat, now: nat, ok: bool)
    requires Placed(k) && id in k.channels && t < |k.channels[id].floor.timers|
    ensures var r, after := TimeOut(k, id, t, now, ok), SeenExpire(seen, k, id, now, ok);
            SameDisk(k, seen, r, after) || KeyingEnds(k, seen, r, after, id, now, ok)
  {
  }

  lemma SwitchLeavesDisk(k: Core, seen: Seen, c: Client, id: int, password: string)
    requires c in k.members
    ensures SameDisk(k, seen, SwitchChannel(k, c, id, password), SeenSwitch(seen, k, c, id, password))
  {
  }

  lemma MovesLeaveDisk(k: Core, seen: Seen, e: Event)
    requires Enabled(k, e) && IsMove(e)
    ensures SameDisk(k, seen, Next(k, e), SeenAfter(seen, k, e))
  {
    match e
    case Connect(_, _, _) =>
    case Disconnect(_) =>
    case Join(c, id, password) => SwitchLeavesDisk(k, seen, c, id, password);
    case Create(c, name, isPrivate, password) =>
      SwitchLeavesDisk(AddChannel(k, name, isPrivate, password), seen, c, NewChannelID(k), password);
  }

  predicate EndsKeying(e: Event) {
    e.Press? || e.LetGo? || e.Expire?
  }

  lemma OthersLeaveDisk(k: Core, seen: Seen, e: Event)
    requires Enabled(k, e) && !EndsKeying(e) && !IsMove(e)
    ensures SameDisk(k, seen, Next(k, e), SeenAfter(seen, k, e))
  {
  }

  /** A step leaves the disk alone or ends a keying. */
  ghost predicate AtDisk(k: Core, seen: Seen, e: Event, r: Core, after: Seen) {
    || SameDisk(k, seen, r, after)
    || (EndsKeying(e) && KeyingEnds(k, seen, r, after, FloorChannel(k, e), ClockOf(e), e.writeOk))
  }

  lemma ButtonStep(k: Core, seen: Seen, e: Event, r: Core, after: Seen)
    requires Placed(k) && Enabled(k, e) && (e.Press? || e.LetGo?)
    requires r == Next(k, e) && after == SeenAfter(seen, k, e)
    ensures AtDisk(k, seen, e, r, after)
  {
    if e.Press? {
      PressAtDisk(k, seen, e.client, e.now, e.writeOk);
    } else {
      LetGoAtDisk(k, seen, e.client, e.now, e.writeOk);
    }
  }

  lemma DiskStep(k: Core, seen: Seen, e: Event, r: Core, after: Seen)
    requires Placed(k) && Enabled(k, e) && r == Next(k, e) && after == SeenAfter(seen, k, e)
    ensures AtDisk(k, seen, e, r, after)
  {
    if e.Press? || e.LetGo? {
      ButtonStep(k, seen, e, r, after);
    } else if e.Expire? {
      ExpireAtDisk(k, seen, e.channelID, e.timer, e.now, e.writeOk);
    } else if IsMove(e) {
      MovesLeaveDisk(k, seen, e);
    } else {
      OthersLeaveDisk(k, seen, e);
    }
  }

  // ---- What an ending does to the disk ----

  lemma EndedOrNot(r: RecorderState, id: int, now: nat, ok: bool)
    ensures r.Ended(id, now, ok).1.Some? <==> r.Completes(id, ok)
    ensures r.Completes(id, ok) ==>
              r.Ended(id, now, ok) == r.Ended(id, now, true) && r.Ended(id, now, ok).1 == Some(r.Recording(id, now))
    ensures !r.Completes(id, ok) ==> r.Ended(id, now, ok).0.files == r.files
  {
  }

  lemma PushedOutNames(all: seq<VoiceRecording>, rec: VoiceRecording, max: nat, r: RecorderState)
    requires 0 < max && r.recordings == Suffix(all, max) + [rec] && r.maxHistory == max
    ensures Names(r.Dropped()) == PushedOut(all, max)
  {
    if max <= |all| {
      assert r.Dropped() == [all[|all| - max]];
      assert all[|all| - max] in r.Dropped();
    }
  }

  lemma EndedFiles(r: RecorderState, id: int, now: nat, all: seq<VoiceRecording>)
    requires r.Completes(id, true) && 0 < r.maxHistory && r.recordings == Suffix(all, r.maxHistory)
    requires IsInside(r.Recording(id, now))
    ensures r.Ended(id, now, true).0.files ==
            DiskAfter(r.files, all, r.maxHistory, r.Recording(id, now), Wav.WavFile(FORMAT, r.activeTX[id].pcm))
  {
    var rec, wav := r.Recording(id, now), Wav.WavFile(FORMAT, r.activeTX[id].pcm);
    StoredAndPruned(r, id, now);
    FileNames.LandsInsideIffUnderItsName(id, r.activeTX[id].callsign, now);
    PushedOutNames(all, rec, r.maxHistory, r.(activeTX := r.activeTX - {id}).Stored(rec, NameOf(rec), wav));
  }

  /** No ending removes a stray, and a recording outside the directory adds one. */
  lemma EndedStrays(r: RecorderState, id: int, now: nat, ok: bool)
    requires HasStray(r.files) || (r.Completes(id, ok) && !IsInside(r.Recording(id, now)))
    ensures HasStray(r.Ended(id, now, ok).0.files)
  {
    EndedOrNot(r, id, now, ok);
    if r.Completes(id, ok) {
      StoredAndPruned(r, id, now);
      var rec, wav := r.Recording(id, now), Wav.WavFile(FORMAT, r.activeTX[id].pcm);
      var landing := FileNames.Landing(FileNames.FileName(id, r.activeTX[id].callsign, now));
      var stored := r.(activeTX := r.activeTX - {id}).Stored(rec, landing, wav);
      assert HasStray(stored.files) by {
        if '/' in landing {
          assert landing in stored.files;
        } else {
          var path :| path in r.files && '/' in path;
          assert path in stored.files;
        }
      }
      var path :| path in stored.files && '/' in path;
      PruningLeavesStrays(stored, path);
    }
  }

  lemma EndKeepsDisk(k: Core, seen: Seen, r: Core, after: Seen, id: int, now: nat, ok: bool)
    requires Consistent(k, seen) && DiskSeen(k, seen) && KeyingEnds(k, seen, r, after, id, now, ok)
    requires AllInside(after.recorded)
    ensures DiskSeen(r, after)
  {
    EndedOrNot(k.recorder, id, now, ok);
    if k.recorder.Completes(id, ok) {
      var rec, take := k.recorder.Recording(id, now), Lookup(seen.heard, id);
      assert after.recorded == seen.recorded + [rec] && after.recorded[|seen.recorded|] == rec;
      EndedFiles(k.recorder, id, now, seen.recorded);
      DiskAfterRecording(k.recorder.files, seen.recorded, seen.takes, k.recorder.maxHistory, rec, take);
    }
  }

  lemma EndKeepsStrays(k: Core, seen: Seen, r: Core, after: Seen, id: int, now: nat, ok: bool)
    requires KeyingEnds(k, seen, r, after, id, now, ok) && !AllInside(after.recorded)
    requires AllInside(seen.recorded) || HasStray(k.recorder.files)
    ensures HasStray(r.recorder.files)
  {
    EndedOrNot(k.recorder, id, now, ok);
    EndedStrays(k.recorder, id, now, ok);
  }

  // ---- Runs ----

  lemma RecordedOnlyGrows(k: Core, seen: Seen, e: Event, r: Core, after: Seen)
    requires AtDisk(k, seen, e, r, after)
    ensures seen.recorded <= after.recorded && (AllInside(after.recorded) ==> AllInside(seen.recorded))
  {
    assert forall j :: 0 <= j < |seen.recorded| ==> seen.recorded[j] == after.recorded[j];
  }

  /** Step `i`, seen from the log. */
  ghost predicate SeenAtDisk(cores: seq<Core>, mails: seq<Mail>, events: seq<Event>, i: nat)
    requires i < |events| < |cores| == |mails|
  {
    var seen := Replay(mails[i].log);
    Consistent(cores[i], seen) && AtDisk(cores[i], seen, events[i], cores[i + 1], Replay(mails[i + 1].log))
  }

  lemma RunStepAtDisk(cores: seq<Core>, mails: seq<Mail>, events: seq<Event>, i: nat)
    requires IsSystemRun(cores, mails, events) && i < |events|
    ensures SeenAtDisk(cores, mails, events, i)
  {
    RunKeepsPlacement(cores, events, i);
    LogTellsTheHub(cores, mails, events, i);
    EveryStepIsSeen(mails[i], cores[i], events[i]);
    DiskStep(cores[i], Replay(mails[i].log), events[i], cores[i + 1], Replay(mails[i + 1].log));
  }

  lemma StepKeepsDisk(k: Core, seen: Seen, e: Event, r: Core, after: Seen)
    requires Consistent(k, seen) && DiskSeen(k, seen) && AtDisk(k, seen, e, r, after) && AllInside(after.recorded)
    ensures DiskSeen(r, after)
  {
    if !SameDisk(k, seen, r, after) {
      EndKeepsDisk(k, seen, r, after, FloorChannel(k, e), ClockOf(e), e.writeOk);
    }
  }

  lemma StepKeepsStrays(k: Core, seen: Seen, e: Event, r: Core, after: Seen)
    requires AtDisk(k, seen, e, r, after) && !AllInside(after.recorded)
    requires AllInside(seen.recorded) || HasStray(k.recorder.files)
    ensures HasStray(r.recorder.files)
  {
    if !SameDisk(k, seen, r, after) {
      EndKeepsStrays(k, seen, r, after, FloorChannel(k, e), ClockOf(e), e.writeOk);
    }
  }

  lemma NewDisk(cores: seq<Core>, mails: seq<Mail>, events: seq<Event>)
    requires IsSystemRun(cores, mails, events)
    ensures Replay(mails[0].log) == NOTHING && DiskSeen(cores[0], NOTHING)
  {
  }

  /** While all files land inside, the log tells the disk; once one lands elsewhere, some stray stays. */
  ghost predicate DiskTold(k: Core, seen: Seen) {
    if AllInside(seen.recorded) then DiskSeen(k, seen) else HasStray(k.recorder.files)
  }

  lemma StepKeepsDiskTold(cores: seq<Core>, mails: seq<Mail>, events: seq<Event>, i: nat)
    requires i < |events| < |cores| == |mails| && SeenAtDisk(cores, mails, events, i)
    requires DiskTold(cores[i], Replay(mails[i].log))
    ensures DiskTold(cores[i + 1], Replay(mails[i + 1].log))
  {
    var k, seen, e, r, after := cores[i], Replay(mails[i].log), events[i], cores[i + 1], Replay(mails[i + 1].log);
    RecordedOnlyGrows(k, seen, e, r, after);
    if AllInside(after.recorded) {
      StepKeepsDisk(k, seen, e, r, after);
    } else {
      StepKeepsStrays(k, seen, e, r, after);
    }
  }

  /** Every record has the name of its keying, and tells size and length of the file of what was heard for it. */
  ghost predicate AllTold(all: seq<VoiceRecording>, takes: seq<seq<seq<byte>>>) {
    && |takes| == |all|
    && forall i :: 0 <= i < |all| ==> Titled(all[i]) && TellsLength(all[i], Wav.WavFile(FORMAT, KeepAll(takes[i])))
  }

  lemma EndKeepsTold(k: Core, seen: Seen, e: Event, r: Core, after: Seen)
    requires Consistent(k, seen) && AtDisk(k, seen, e, r, after) && AllTold(seen.recorded, seen.takes)
    ensures AllTold(after.recorded, after.takes)
  {
    if !SameDisk(k, seen, r, after) {
      var id, now := FloorChannel(k, e), ClockOf(e);
      EndedOrNot(k.recorder, id, now, e.writeOk);
      if k.recorder.Completes(id, e.writeOk) {
        var path, wav := EndingTellsLength(k.recorder, id, now);
        assert after.recorded == seen.recorded + [k.recorder.Recording(id, now)];
        assert after.takes == seen.takes + [Lookup(seen.heard, id)];
      }
    }
  }

  /** What the log tells at state `i`: the disk, and what the records say of their files. */
  ghost predicate ToldAt(cores: seq<Core>, mails: seq<Mail>, i: nat)
    requires i < |cores| == |mails|
  {
    DiskTold(cores[i], Replay(mails[i].log)) && AllTold(Replay(mails[i].log).recorded, Replay(mails[i].log).takes)
  }

  lemma RunStepKeepsTold(cores: seq<Core>, mails: seq<Mail>, events: seq<Event>, i: nat)
    requires IsSystemRun(cores, mails, events) && i < |events| && ToldAt(cores, mails, i)
    ensures ToldAt(cores, mails, i + 1)
  {
    RunStepAtDisk(cores, mails, events, i);
    StepKeepsDiskTold(cores, mails, events, i);
    EndKeepsTold(cores[i], Replay(mails[i].log), events[i], cores[i + 1], Replay(mails[i + 1].log));
  }

  lemma RunStepsKeepTold(cores: seq<Core>, mails: seq<Mail>, events: seq<Event>)
    requires IsSystemRun(cores, mails, events)
    ensures ToldAt(cores, mails, 0)
    ensures forall i :: 0 <= i < |cores| - 1 && ToldAt(cores, mails, i) ==> ToldAt(cores, mails, i + 1)
  {
    NewDisk(cores, mails, events);
    forall i | 0 <= i < |cores| - 1 && ToldAt(cores, mails, i) ensures ToldAt(cores, mails, i + 1) {
      RunStepKeepsTold(cores, mails, events, i);
    }
  }

  lemma {:induction false} ToldAllAlong(cores: seq<Core>, mails: seq<Mail>, i: nat)
    requires i < |cores| == |mails| && ToldAt(cores, mails, 0)
    requires forall j :: 0 <= j < |cores| - 1 && ToldAt(cores, mails, j) ==> ToldAt(cores, mails, j + 1)
    ensures ToldAt(cores, mails, i)
  {
    if i > 0 {
      ToldAllAlong(cores, mails, i - 1);
      assert ToldAt(cores, mails, i - 1 + 1);
    }
  }

  lemma RunKeepsTold(cores: seq<Core>, mails: seq<Mail>, events: seq<Event>, i: nat)
    requires IsSystemRun(cores, mails, events) && i < |cores|
    ensures ToldAt(cores, mails, i)
  {
    RunStepsKeepTold(cores, mails, events);
    ToldAllAlong(cores, mails, i);
  }

  /**
   In every run, as long as the files of all recordings came to lie in the storage directory, the log tells which files
   are there and what they hold.
   */
  lemma LogTellsTheDisk(cores: seq<Core>, mails: seq<Mail>, events: seq<Event>, i: nat)
    requires IsSystemRun(cores, mails, events) && i < |cores| && AllInside(Replay(mails[i].log).recorded)
    ensures DiskSeen(cores[i], Replay(mails[i].log))
  {
    RunKeepsTold(cores, mails, events, i);
  }

  // ---- Disk and list ----

  /**
   Recording `i` is listed and the latest of its name, and its file is gone: an earlier recording of the same name was
   still listed when recording `i` was made and has fallen off the list since.
   */
  predicate LosesFile(all: seq<VoiceRecording>, i: nat, max: nat) {
    && IsLatest(all, i) && |all| <= i + max
    && exists j :: 0 <= j < i && NameOf(all[j]) == NameOf(all[i]) && i <= j + max < |all|
  }

  predicate NoFileIsLost(all: seq<VoiceRecording>, max: nat) {
    forall i :: 0 <= i < |all| ==> !LosesFile(all, i, max)
  }

  lemma SurvivesIff(all: seq<VoiceRecording>, i: nat, max: nat)
    requires 0 < max && i < |all|
    ensures Survives(all, i, max) <==> IsLatest(all, i) && |all| <= i + max && !LosesFile(all, i, max)
  {
    assert NameOf(all[i]) == NameOf(all[i]);
    if IsLatest(all, i) && |all| <= i + max && !LosesFile(all, i, max) {
      forall j | 0 <= j <= i && NameOf(all[j]) == NameOf(all[i]) ensures j + max < i || |all| <= j + max {
      }
    }
  }

  lemma {:induction false} LatestOf(all: seq<VoiceRecording>, i: nat) returns (l: nat)
    requires i < |all|
    ensures i <= l < |all| && IsLatest(all, l) && NameOf(all[l]) == NameOf(all[i])
    decreases |all| - i
  {
    if IsLatest(all, i) {
      l := i;
    } else {
      var j :| i < j < |all| && NameOf(all[j]) == NameOf(all[i]);
      l := LatestOf(all, j);
    }
  }

  lemma Listed(all: seq<VoiceRecording>, i: nat, max: nat)
    requires |all| <= i + max && i < |all|
    ensures NameOf(all[i]) in Names(Suffix(all, max))
  {
    var from := if |all| <= max then 0 else |all| - max;
    assert Suffix(all, max) == all[from..] && all[from..][i - from] == all[i];
    assert all[i] in Suffix(all, max);
  }

  lemma ListedAs(all: seq<VoiceRecording>, name: string, max: nat) returns (i: nat)
    requires name in Names(Suffix(all, max))
    ensures i < |all| <= i + max && NameOf(all[i]) == name
  {
    var from := if |all| <= max then 0 else |all| - max;
    assert Suffix(all, max) == all[from..];
    var n :| 0 <= n < |all[from..]| && NameOf(all[from..][n]) == name;
    i := from + n;
  }

  lemma LostFileIsMissing(files: map<string, seq<byte>>, all: seq<VoiceRecording>, takes: seq<seq<seq<byte>>>,
                          max: nat, i: nat)
    requires 0 < max && DiskHolds(files, all, takes, max) && LosesFile(all, i, max)
    ensures NameOf(all[i]) in Names(Suffix(all, max)) && NameOf(all[i]) !in files
  {
    Listed(all, i, max);
    SurvivesIff(all, i, max);
    forall l | 0 <= l < |all| && Survives(all, l, max) ensures NameOf(all[l]) != NameOf(all[i]) {
      assert l != i;
    }
  }

  lemma ListedFileIsThere(files: map<string, seq<byte>>, all: seq<VoiceRecording>, takes: seq<seq<seq<byte>>>,
                          max: nat, name: string)
    requires 0 < max && DiskHolds(files, all, takes, max) && name in Names(Suffix(all, max))
    requires NoFileIsLost(all, max)
    ensures name in files
  {
    var i := ListedAs(all, name, max);
    var l := LatestOf(all, i);
    SurvivesIff(all, l, max);
  }

  lemma FileIsListed(files: map<string, seq<byte>>, all: seq<VoiceRecording>, takes: seq<seq<seq<byte>>>, max: nat,
                     name: string)
    requires 0 < max && DiskHolds(files, all, takes, max) && name in files
    ensures name in Names(Suffix(all, max))
  {
    var i :| 0 <= i < |all| && Survives(all, i, max) && NameOf(all[i]) == name;
    SurvivesIff(all, i, max);
    Listed(all, i, max);
  }

  lemma DiskMatchesListIff(files: map<string, seq<byte>>, all: seq<VoiceRecording>, takes: seq<seq<seq<byte>>>,
                           max: nat)
    requires 0 < max && DiskHolds(files, all, takes, max)
    ensures files.Keys <= Names(Suffix(all, max))
    ensures files.Keys == Names(Suffix(all, max)) <==> NoFileIsLost(all, max)
  {
    forall name | name in files ensures name in Names(Suffix(all, max)) {
      FileIsListed(files, all, takes, max, name);
    }
    if i :| 0 <= i < |all| && LosesFile(all, i, max) {
      LostFileIsMissing(files, all, takes, max, i);
    } else {
      forall name | name in Names(Suffix(all, max)) ensures name in files {
        ListedFileIsThere(files, all, takes, max, name);
      }
    }
  }

  lemma MatchesIffNoFileIsLost(k: Core, seen: Seen)
    requires DiskSeen(k, seen) && HistoriesSeen(k, seen)
    ensures k.recorder.files.Keys <= Names(k.recorder.recordings)
    ensures ArchiveMatchesList(k.recorder) <==> NoFileIsLost(seen.recorded, k.recorder.maxHistory)
  {
    DiskMatchesListIff(k.recorder.files, seen.recorded, seen.takes, k.recorder.maxHistory);
  }

  lemma StrayIsNotListed(r: RecorderState)
    requires HasStray(r.files)
    ensures !ArchiveMatchesList(r)
  {
  }

  /**
   In every run disk and list match exactly if the files of all recordings came to lie in the storage directory and no
   listed recording has lost its file to an evicted one of the same name. In the first case alone every file there is a
   listed one's.
   */
  lemma RunKeepsArchiveIff(cores: seq<Core>, mails: seq<Mail>, events: seq<Event>, i: nat)
    requires IsSystemRun(cores, mails, events) && i < |cores|
    ensures var r, all := cores[i].recorder, Replay(mails[i].log).recorded;
            && (ArchiveMatchesList(r) <==> AllInside(all) && NoFileIsLost(all, r.maxHistory))
            && (AllInside(all) ==> r.files.Keys <= Names(r.recordings))
  {
    if AllInside(Replay(mails[i].log).recorded) {
      LogTellsTheDisk(cores, mails, events, i);
      LogTellsTheHub(cores, mails, events, i);
      MatchesIffNoFileIsLost(cores[i], Replay(mails[i].log));
    } else {
      RunKeepsTold(cores, mails, events, i);
      StrayIsNotListed(cores[i].recorder);
    }
  }

  // ---- Distinct keyings ----

  predicate SeparatorFree(all: seq<VoiceRecording>) {
    forall i :: 0 <= i < |all| ==> '/' !in all[i].callsign
  }

  predicate DistinctKeyings(all: seq<VoiceRecording>) {
    forall i, j :: 0 <= i < j < |all| ==> !SameKeying(all[i], all[j])
  }

  predicate DistinctNames(all: seq<VoiceRecording>) {
    forall i, j :: 0 <= i < j < |all| ==> NameOf(all[i]) != NameOf(all[j])
  }

  /** In every run each record names its keying, and gives size and duration of the file of what was heard for it. */
  lemma RecordsTellTheirFiles(cores: seq<Core>, mails: seq<Mail>, events: seq<Event>, i: nat)
    requires IsSystemRun(cores, mails, events) && i < |cores|
    ensures AllTold(Replay(mails[i].log).recorded, Replay(mails[i].log).takes)
  {
    RunKeepsTold(cores, mails, events, i);
  }

  predicate AllTitled(all: seq<VoiceRecording>) {
    forall i :: 0 <= i < |all| ==> Titled(all[i])
  }

  /** Without separators, files land inside and names differ as keyings do. */
  lemma PlainKeyings(all: seq<VoiceRecording>)
    requires SeparatorFree(all) && AllTitled(all)
    ensures AllInside(all) && (DistinctNames(all) <==> DistinctKeyings(all))
  {
    forall i | 0 <= i < |all| ensures IsInside(all[i]) {
      FileNames.PlainCallsignLandsInside(all[i].channelID, all[i].callsign, all[i].nanos);
    }
    forall i, j | 0 <= i < |all| && 0 <= j < |all|
      ensures NameOf(all[i]) == NameOf(all[j]) <==> SameKeying(all[i], all[j])
    {
      SameNameIffSameKeying(all[i], all[j]);
    }
  }

  /**
   The file of recording `rec` is on disk, it is the WAV file of the payloads `take`, readable if they are even, and
   `rec` tells its size and how long it lasts.
   */
  ghost predicate Archived(files: map<string, seq<byte>>, rec: VoiceRecording, take: seq<seq<byte>>) {
    && NameOf(rec) in files && files[NameOf(rec)] == Wav.WavFile(FORMAT, KeepAll(take))
       && TellsLength(rec, files[NameOf(rec)])
    && (|KeepAll(take)| % 2 == 0 ==> Wav.ReadWav(files[NameOf(rec)]) == Some(Wav.Sound(FORMAT, KeepAll(take))))
  }

  lemma ListedIsArchived(files: map<string, seq<byte>>, all: seq<VoiceRecording>, takes: seq<seq<seq<byte>>>, max: nat,
                         i: nat)
    requires 0 < max && DiskHolds(files, all, takes, max) && DistinctNames(all) && i < |all| <= i + max
    requires AllTold(all, takes)
    ensures Archived(files, all[i], takes[i])
  {
    SurvivesIff(all, i, max);
    RecordedFilesAreReadable(KeepAll(takes[i]));
  }

  /** Disk and list match, and file by file the disk holds what the log says was heard. */
  ghost predicate ArchiveIsWhole(r: RecorderState, seen: Seen) {
    && ArchiveMatchesList(r) && r.recordings == Suffix(seen.recorded, r.maxHistory) && |seen.takes| == |seen.recorded|
    && forall i :: 0 <= i < |seen.recorded| <= i + r.maxHistory ==> Archived(r.files, seen.recorded[i], seen.takes[i])
  }

  lemma DistinctNamesLoseNoFile(all: seq<VoiceRecording>, max: nat)
    requires DistinctNames(all)
    ensures NoFileIsLost(all, max)
  {
  }

  lemma DistinctNamesKeepArchive(k: Core, seen: Seen)
    requires DiskSeen(k, seen) && HistoriesSeen(k, seen) && DistinctNames(seen.recorded)
    requires AllTold(seen.recorded, seen.takes)
    ensures ArchiveIsWhole(k.recorder, seen)
  {
    var r, all := k.recorder, seen.recorded;
    DistinctNamesLoseNoFile(all, r.maxHistory);
    MatchesIffNoFileIsLost(k, seen);
    forall i | 0 <= i < |all| <= i + r.maxHistory ensures Archived(r.files, all[i], seen.takes[i]) {
      ListedIsArchived(r.files, all, seen.takes, r.maxHistory, i);
    }
  }

  /**
   In every run in which no two keyings agree in channel, callsign and second, and no callsign holds a separator, the
   files on disk are exactly those of the listed recordings, and each holds what was heard for its recording.
   */
  lemma RunKeepsArchive(cores: seq<Core>, mails: seq<Mail>, events: seq<Event>, i: nat)
    requires IsSystemRun(cores, mails, events) && i < |cores|
    requires SeparatorFree(Replay(mails[i].log).recorded) && DistinctKeyings(Replay(mails[i].log).recorded)
    ensures ArchiveIsWhole(cores[i].recorder, Replay(mails[i].log))
  {
    RunKeepsTold(cores, mails, events, i);
    PlainKeyings(Replay(mails[i].log).recorded);
    LogTellsTheDisk(cores, mails, events, i);
    LogTellsTheHub(cores, mails, events, i);
    DistinctNamesKeepArchive(cores[i], Replay(mails[i].log));
  }

  /**
   In every run without separators a recording loses its file exactly if it is the latest of its channel, callsign and
   second, and an earlier such recording, listed when it was made, has been evicted since.
   */
  lemma RunLosesFileIffNamesakeEvicted(cores: seq<Core>, mails: seq<Mail>, events: seq<Event>, i: nat, n: nat)
    requires IsSystemRun(cores, mails, events) && i < |cores|
    requires SeparatorFree(Replay(mails[i].log).recorded) && n < |Replay(mails[i].log).recorded|
    ensures var all, max := Replay(mails[i].log).recorded, cores[i].recorder.maxHistory;
            LosesFile(all, n, max) <==>
              && |all| <= n + max && (forall j :: n < j < |all| ==> !SameKeying(all[j], all[n]))
              && exists j :: 0 <= j < n && SameKeying(all[j], all[n]) && n <= j + max < |all|
  {
    RunKeepsTold(cores, mails, events, i);
    LosesFileIffNamesakeEvicted(Replay(mails[i].log).recorded, n, cores[i].recorder.maxHistory);
  }

  lemma LosesFileIffNamesakeEvicted(all: seq<VoiceRecording>, n: nat, max: nat)
    requires SeparatorFree(all) && AllTitled(all) && n < |all|
    ensures LosesFile(all, n, max) <==>
              && |all| <= n + max && (forall j :: n < j < |all| ==> !SameKeying(all[j], all[n]))
              && exists j :: 0 <= j < n && SameKeying(all[j], all[n]) && n <= j + max < |all|
  {
    forall j | 0 <= j < |all| ensures NameOf(all[j]) == NameOf(all[n]) <==> SameKeying(all[j], all[n]) {
      SameNameIffSameKeying(all[j], all[n]);
    }
  }
}
