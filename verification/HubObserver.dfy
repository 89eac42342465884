/**
 What an observer of the hub's log can conclude: in every run the log alone determines which channels are busy, who
 speaks, what the recorder has buffered, the recordings list and the chat histories.
 */
module HubObserver {
  import opened Wrappers
  import opened Bytes
  import Messages
  import opened Clients
  import Floor
  import opened HubLog
  import Recorder
  import opened HubCore
  import opened HubRuns
  import Protocol

  // ---- The observer's view of each step ----

  function SeenLeave(seen: Seen, k: Core, c: Client): Seen
    requires c in k.members
  {
    var m := k.members[c];
    if m.channelID in k.channels && k.channels[m.channelID].floor.speaker == c
    then seen.Stopped(m.channelID, m.id)
    else seen
  }

  function SeenSwitch(seen: Seen, k: Core, c: Client, id: int, password: string): Seen
    requires c in k.members
  {
    if JudgeSwitch(k, c, id, password).Enter? then SeenLeave(seen, k, c) else seen
  }

  function SeenCreate(seen: Seen, k: Core, c: Client, name: string, isPrivate: bool, password: string): Seen
    requires c in k.members
  {
    if name == "" then seen
    else SeenSwitch(seen, AddChannel(k, name, isPrivate, password), c, NewChannelID(k), password)
  }

  function SeenPress(seen: Seen, k: Core, c: Client, now: nat, writeOk: bool): Seen
    requires c in k.members
  {
    var m := k.members[c];
    if m.channelID !in k.channels then seen
    else
      var reply := k.Requested(c, now).1;
      if !reply.granted then seen
      else
        var ended := if reply.preempted != null then k.recorder.Ended(m.channelID, now, writeOk).1 else None;
        seen.Recorded(ended).Talking(m.channelID, m.id)
  }

  function SeenLetGo(seen: Seen, k: Core, c: Client, now: nat, writeOk: bool): Seen
    requires c in k.members
  {
    var m := k.members[c];
    if m.channelID !in k.channels || k.channels[m.channelID].floor.speaker != c then seen
    else
      var rec := k.recorder.Ended(m.channelID, now, writeOk).1;
      var seen1 := seen.Recorded(rec);
      (if rec.Some? then seen1.Chatted(m.channelID, VoiceMessage(m.channelID, m, rec.value)) else seen1)
        .Stopped(m.channelID, m.id)
  }

  function SeenExpire(seen: Seen, k: Core, id: int, now: nat, writeOk: bool): Seen
    requires id in k.channels
  {
    var speaker := k.channels[id].floor.speaker;
    if speaker == null then seen
    else seen.Recorded(k.recorder.Ended(id, now, writeOk).1).Stopped(id, k.IdOf(speaker))
  }

  function SeenPacket(seen: Seen, k: Core, c: Client, data: seq<byte>): Seen
    requires c in k.members
  {
    if !Accepts(k, c, data) then seen
    else
      var p := Protocol.ParseAudioHeaderQuick(data).value;
      seen.Hearing(p.channelID, p.payload)
  }

  function SeenSay(seen: Seen, k: Core, c: Client, text: string, fileURL: string): Seen
    requires c in k.members
  {
    if ChatText(text) == "" && fileURL == "" then seen
    else seen.Chatted(k.members[c].channelID, ChatEntry(k.members[c], text, fileURL))
  }

  function SeenAfter(seen: Seen, k: Core, e: Event): Seen
    requires Enabled(k, e)
  {
    match e
    case Disconnect(c) => SeenLeave(seen, k, c)
    case Join(c, id, password) => SeenSwitch(seen, k, c, id, password)
    case Create(c, name, isPrivate, password) => SeenCreate(seen, k, c, name, isPrivate, password)
    case Press(c, now, ok) => SeenPress(seen, k, c, now, ok)
    case LetGo(c, now, ok) => SeenLetGo(seen, k, c, now, ok)
    case Expire(id, _, now, ok) => SeenExpire(seen, k, id, now, ok)
    case Packet(c, data) => SeenPacket(seen, k, c, data)
    case Say(c, text, fileURL) => SeenSay(seen, k, c, text, fileURL)
    case _ => seen
  }

  // ---- What the view says about the hub ----

  /** Busy channels, their speakers and every user_stopped are as announced. */
  ghost predicate FloorsSeen(k: Core, seen: Seen) {
    && seen.stopsMatch
    && seen.busy <= k.channels.Keys
    && forall id <- k.channels ::
         && (id in seen.busy <==> k.channels[id].floor.isBusy)
         && (k.channels[id].floor.isBusy ==>
            id in seen.talker && seen.talker[id] == k.IdOf(k.channels[id].floor.speaker))
  }

  /**
   A busy channel's buffer belongs to its speaker and holds what was heard since the speaker's latest user_talking.
   */
  ghost predicate BuffersSeen(k: Core, seen: Seen) {
    && (!k.recorder.enabled ==> k.recorder.activeTX == map[])
    && (forall id <- k.recorder.activeTX :: |k.recorder.activeTX[id].pcm| <= Recorder.MAX_BUFFER_BYTES)
    && (k.recorder.enabled ==> forall id <- k.channels :: k.channels[id].floor.isBusy ==>
          && id in k.recorder.activeTX
          && k.recorder.activeTX[id].speakerID == k.IdOf(k.channels[id].floor.speaker)
          && k.recorder.activeTX[id].pcm == Recorder.KeepAll(Lookup(seen.heard, id)))
  }

  /** The bounded histories are the ends of the unbounded ones. */
  ghost predicate HistoriesSeen(k: Core, seen: Seen) {
    && k.recorder.maxHistory > 0
    && k.recorder.recordings == Suffix(seen.recorded, k.recorder.maxHistory)
    && forall id :: Lookup(k.chatHistory, id) == Suffix(Lookup(seen.chat, id), 30)
  }

  ghost predicate Consistent(k: Core, seen: Seen) {
    FloorsSeen(k, seen) && BuffersSeen(k, seen) && HistoriesSeen(k, seen)
  }

  // ---- Floors ----

  lemma FloorStarts(k: Core, r: Core, seen: Seen, after: Seen, id: int, f: Floor.FloorState)
    requires FloorsSeen(k, seen) && id in k.channels && f.isBusy
    requires r.channels == k.WithFloor(id, f).channels && r.members == k.members
    requires after.stopsMatch == seen.stopsMatch && after.busy == seen.busy + {id}
    requires after.talker == seen.talker[id := k.IdOf(f.speaker)]
    ensures FloorsSeen(r, after)
  {
  }

  lemma FloorStops(k: Core, r: Core, seen: Seen, after: Seen, id: int, f: Floor.FloorState)
    requires FloorsSeen(k, seen) && id in k.channels && k.channels[id].floor.isBusy && !f.isBusy
    requires r.channels == k.WithFloor(id, f).channels && r.members == k.members
    requires var user := k.IdOf(k.channels[id].floor.speaker);
             && after.stopsMatch == (seen.stopsMatch && id in seen.talker && seen.talker[id] == user)
             && after.busy == seen.busy - {id} && after.talker == seen.talker
    ensures FloorsSeen(r, after)
  {
  }

  /** Subscribers and timers do not matter. */
  lemma FloorStays(k: Core, r: Core, seen: Seen, id: int, f: Floor.FloorState)
    requires FloorsSeen(k, seen) && BuffersSeen(k, seen) && id in k.channels
    requires f.isBusy == k.channels[id].floor.isBusy && f.speaker == k.channels[id].floor.speaker
    requires r.channels == k.WithFloor(id, f).channels && r.members == k.members && r.recorder == k.recorder
    ensures FloorsSeen(r, seen) && BuffersSeen(r, seen)
  {
  }

  // ---- Buffers ----

  lemma BufferStarts(k: Core, r: Core, seen: Seen, after: Seen, id: int, f: Floor.FloorState)
    requires BuffersSeen(k, seen) && id in k.channels
    requires r.channels == k.WithFloor(id, f).channels && r.members == k.members
    requires r.recorder.enabled == k.recorder.enabled
    requires r.recorder.activeTX - {id} == k.recorder.activeTX - {id}
    requires if k.recorder.enabled then id in r.recorder.activeTX && r.recorder.activeTX[id].pcm == []
                                        && r.recorder.activeTX[id].speakerID == k.IdOf(f.speaker)
             else r.recorder.activeTX == map[]
    requires after.heard == seen.heard[id := []]
    ensures BuffersSeen(r, after)
  {
    assert Recorder.KeepAll([]) == [];
    forall i | i in r.recorder.activeTX && i != id
      ensures i in k.recorder.activeTX && r.recorder.activeTX[i] == k.recorder.activeTX[i]
    {
      assert i in r.recorder.activeTX - {id};
      assert (k.recorder.activeTX - {id})[i] == (r.recorder.activeTX - {id})[i];
    }
    forall i | i in k.recorder.activeTX && i != id ensures i in r.recorder.activeTX {
      assert i in k.recorder.activeTX - {id};
    }
  }

  /** A floor goes idle: its buffer is finished, or left behind until the next grant overwrites it. */
  lemma BufferStops(k: Core, r: Core, seen: Seen, after: Seen, id: int, f: Floor.FloorState)
    requires BuffersSeen(k, seen) && id in k.channels && !f.isBusy
    requires r.channels == k.WithFloor(id, f).channels && r.members == k.members
    requires r.recorder.enabled == k.recorder.enabled
    requires r.recorder.activeTX == k.recorder.activeTX || r.recorder.activeTX == k.recorder.activeTX - {id}
    requires after.heard == seen.heard
    ensures BuffersSeen(r, after)
  {
  }

  // ---- Histories ----

  lemma HistoriesKeep(k: Core, r: Core, seen: Seen, after: Seen)
    requires HistoriesSeen(k, seen)
    requires r.recorder.recordings == k.recorder.recordings && r.recorder.maxHistory == k.recorder.maxHistory
    requires r.chatHistory == k.chatHistory && after.recorded == seen.recorded && after.chat == seen.chat
    ensures HistoriesSeen(r, after)
  {
  }

  lemma HistoriesRecord(k: Core, r: Core, seen: Seen, after: Seen, rec: Option<Messages.VoiceRecording>)
    requires HistoriesSeen(k, seen)
    requires r.recorder.maxHistory == k.recorder.maxHistory && r.chatHistory == k.chatHistory
    requires r.recorder.recordings ==
             if rec.Some? then Suffix(k.recorder.recordings + [rec.value], k.recorder.maxHistory)
             else k.recorder.recordings
    requires after.recorded == seen.Recorded(rec).recorded && after.chat == seen.chat
    ensures HistoriesSeen(r, after)
  {
  }

  lemma HistoriesChat(k: Core, r: Core, seen: Seen, after: Seen, id: int, m: Messages.ChatMessage)
    requires HistoriesSeen(k, seen)
    requires r.recorder.recordings == k.recorder.recordings && r.recorder.maxHistory == k.recorder.maxHistory
    requires r.chatHistory == k.WithChat(id, m).chatHistory
    requires after.recorded == seen.recorded && after.chat == seen.Chatted(id, m).chat
    ensures HistoriesSeen(r, after)
  {
    SuffixAppend(Lookup(seen.chat, id), m, CHAT_HISTORY);
    forall i ensures Lookup(r.chatHistory, i) == Suffix(Lookup(after.chat, i), CHAT_HISTORY) {
      assert Lookup(k.chatHistory, i) == Suffix(Lookup(seen.chat, i), CHAT_HISTORY);
    }
  }

  // ---- Steps ----

  /** Leaving keeps the picture right; `c` then speaks nowhere. */
  lemma LeaveKeepsPicture(k: Core, seen: Seen, c: Client)
    requires Placed(k) && Consistent(k, seen) && c in k.members
    ensures Consistent(Leave(k, c), SeenLeave(seen, k, c))
  {
    var id := k.members[c].channelID;
    var f, r, after := k.channels[id].floor.WithoutSubscriber(c).0, Leave(k, c), SeenLeave(seen, k, c);
    if k.channels[id].floor.speaker == c {
      FloorStops(k, r, seen, after, id, f);
      BufferStops(k, r, seen, after, id, f);
    } else {
      FloorStays(k, r, seen, id, f);
    }
    HistoriesKeep(k, r, seen, after);
  }

  lemma ArriveKeepsPicture(k: Core, seen: Seen, c: Client, id: int)
    requires Consistent(k, seen) && c in k.members && id in k.channels
    ensures Consistent(Arrive(k, c, id), seen)
  {
  }

  lemma DropKeepsPicture(k: Core, seen: Seen, c: Client)
    requires PlacedBut(k, c) && Consistent(k, seen)
    ensures Consistent(k.(members := k.members - {c}, byID := k.byID - {k.members[c].id}), seen)
  {
  }

  lemma DisconnectKeepsPicture(k: Core, seen: Seen, c: Client)
    requires Placed(k) && Consistent(k, seen) && c in k.members
    ensures Consistent(Unregister(k, c), SeenLeave(seen, k, c))
  {
    LeaveKeepsPicture(k, seen, c);
    LeaveIsPlacedBut(k, c);
    var r := Leave(k, c);
    DropKeepsPicture(r, SeenLeave(seen, k, c), c);
    assert Unregister(k, c) == r.(members := r.members - {c}, byID := r.byID - {r.members[c].id});
  }

  lemma SwitchKeepsPicture(k: Core, seen: Seen, c: Client, id: int, password: string)
    requires Placed(k) && Consistent(k, seen) && c in k.members
    ensures Consistent(SwitchChannel(k, c, id, password), SeenSwitch(seen, k, c, id, password))
  {
    if JudgeSwitch(k, c, id, password).Enter? {
      LeaveKeepsPicture(k, seen, c);
      ArriveKeepsPicture(Leave(k, c), SeenLeave(seen, k, c), c, id);
    }
  }

  lemma AddChannelKeepsPicture(k: Core, seen: Seen, name: string, isPrivate: bool, password: string)
    requires Consistent(k, seen)
    ensures Consistent(AddChannel(k, name, isPrivate, password), seen)
  {
  }

  lemma CreateKeepsPicture(k: Core, seen: Seen, c: Client, name: string, isPrivate: bool, password: string)
    requires Placed(k) && Consistent(k, seen) && c in k.members
    ensures Consistent(CreateChannel(k, c, name, isPrivate, password),
            SeenCreate(seen, k, c, name, isPrivate, password))
  {
    AddChannelKeepsPicture(k, seen, name, isPrivate, password);
    AddChannelKeepsPlacement(k, name, isPrivate, password);
    SwitchKeepsPicture(AddChannel(k, name, isPrivate, password), seen, c, NewChannelID(k), password);
  }

  lemma RegisterKeepsPicture(k: Core, seen: Seen, c: Client, m: Member, pick: int)
    requires Placed(k) && Consistent(k, seen) && c !in k.members && pick in k.channels
    ensures Consistent(Register(k, c, m, pick), seen)
  {
  }

  lemma IdentifyKeepsPicture(k: Core, seen: Seen, c: Client, callsign: string, role: string)
    requires Placed(k) && Consistent(k, seen) && c in k.members
    ensures Consistent(Identify(k, c, callsign, role), seen)
  {
  }

  /** A granted request puts `c` on the floor; a denied one changes nothing. */
  lemma RequestOutcome(f: Floor.FloorState, c: Client, rank: int, holderRank: int, now: nat)
    ensures var (g, reply) := f.Requested(c, rank, holderRank, now);
            && (reply.granted ==> g.isBusy && g.speaker == c)
            && (!reply.granted ==> g == f)
            && g.subscribers == f.subscribers
  {
  }

  lemma PressOutcome(k: Core, c: Client, now: nat, writeOk: bool)
    requires c in k.members && k.members[c].channelID in k.channels
    ensures var id := k.members[c].channelID;
            var (f, reply) := k.Requested(c, now);
            var r := PTTDown(k, c, now, writeOk);
            var ended := if reply.preempted != null then k.recorder.Ended(id, now, writeOk) else (k.recorder, None);
            && var recorder := if reply.granted then ended.0.Started(id, k.members[c], now) else k.recorder;
               r == k.WithFloor(id, f).(recorder := recorder)
  {
  }

  lemma PressKeepsFloors(k: Core, seen: Seen, c: Client, now: nat, writeOk: bool)
    requires Placed(k) && FloorsSeen(k, seen) && c in k.members && k.Requested(c, now).1.granted
    ensures FloorsSeen(PTTDown(k, c, now, writeOk), SeenPress(seen, k, c, now, writeOk))
  {
    var id := k.members[c].channelID;
    var f := k.channels[id].floor;
    RequestOutcome(f, c, k.RankOf(c), k.RankOf(f.speaker), now);
    PressOutcome(k, c, now, writeOk);
    FloorStarts(k, PTTDown(k, c, now, writeOk), seen, SeenPress(seen, k, c, now, writeOk), id, k.Requested(c, now).0);
  }

  /** A grant leaves channel and recorder with a new speaker and an empty buffer, and all other buffers as they were. */
  lemma GrantStartsBuffer(k: Core, c: Client, now: nat, writeOk: bool)
    requires c in k.members && k.members[c].channelID in k.channels && k.Requested(c, now).1.granted
    ensures var id, r := k.members[c].channelID, PTTDown(k, c, now, writeOk).recorder;
            && r.enabled == k.recorder.enabled && r.activeTX - {id} == k.recorder.activeTX - {id}
            && if r.enabled then id in r.activeTX && r.activeTX[id].pcm == [] && r.activeTX[id].speakerID == k.IdOf(c)
               else k.recorder.activeTX == map[] ==> r.activeTX == map[]
  {
    PressOutcome(k, c, now, writeOk);
  }

  lemma GrantMovesFloor(k: Core, c: Client, now: nat, writeOk: bool)
    requires c in k.members && k.members[c].channelID in k.channels && k.Requested(c, now).1.granted
    ensures var id, f := k.members[c].channelID, k.Requested(c, now).0;
            f.speaker == c && PTTDown(k, c, now, writeOk).channels == k.WithFloor(id, f).channels
  {
    var f := k.channels[k.members[c].channelID].floor;
    RequestOutcome(f, c, k.RankOf(c), k.RankOf(f.speaker), now);
    PressOutcome(k, c, now, writeOk);
  }

  lemma PressKeepsBuffers(k: Core, seen: Seen, c: Client, now: nat, writeOk: bool)
    requires Placed(k) && BuffersSeen(k, seen) && c in k.members && k.Requested(c, now).1.granted
    ensures BuffersSeen(PTTDown(k, c, now, writeOk), SeenPress(seen, k, c, now, writeOk))
  {
    var id, r, after := k.members[c].channelID, PTTDown(k, c, now, writeOk), SeenPress(seen, k, c, now, writeOk);
    GrantMovesFloor(k, c, now, writeOk);
    GrantStartsBuffer(k, c, now, writeOk);
    BufferStarts(k, r, seen, after, id, k.Requested(c, now).0);
  }

  lemma PressKeepsHistories(k: Core, seen: Seen, c: Client, now: nat, writeOk: bool)
    requires Placed(k) && HistoriesSeen(k, seen) && c in k.members && k.Requested(c, now).1.granted
    ensures HistoriesSeen(PTTDown(k, c, now, writeOk), SeenPress(seen, k, c, now, writeOk))
  {
    PressOutcome(k, c, now, writeOk);
    HistoriesRecord(k, PTTDown(k, c, now, writeOk), seen, SeenPress(seen, k, c, now, writeOk),
      if k.Requested(c, now).1.preempted != null then k.recorder.Ended(k.members[c].channelID, now, writeOk).1
        else None);
  }

  lemma PressKeepsPicture(k: Core, seen: Seen, c: Client, now: nat, writeOk: bool)
    requires Placed(k) && Consistent(k, seen) && c in k.members
    ensures Consistent(PTTDown(k, c, now, writeOk), SeenPress(seen, k, c, now, writeOk))
  {
    if k.Requested(c, now).1.granted {
      PressKeepsFloors(k, seen, c, now, writeOk);
      PressKeepsBuffers(k, seen, c, now, writeOk);
      PressKeepsHistories(k, seen, c, now, writeOk);
    } else {
      var f := k.channels[k.members[c].channelID].floor;
      RequestOutcome(f, c, k.RankOf(c), k.RankOf(f.speaker), now);
      assert PTTDown(k, c, now, writeOk) == k;
    }
  }

  lemma LetGoOutcome(k: Core, c: Client, now: nat, writeOk: bool)
    requires c in k.members && k.members[c].channelID in k.channels
    requires k.channels[k.members[c].channelID].floor.speaker == c
    ensures var m := k.members[c];
            var id := m.channelID;
            var f := k.channels[id].floor.Released(c).0;
            var (recorder, rec) := k.recorder.Ended(id, now, writeOk);
            var k1 := if rec.Some? then k.WithChat(id, VoiceMessage(id, m, rec.value)) else k;
            && !f.isBusy
            && PTTUp(k, c, now, writeOk) == k.WithFloor(id, f).(recorder := recorder, chatHistory := k1.chatHistory)
  {
  }

  lemma LetGoKeepsFloors(k: Core, seen: Seen, c: Client, now: nat, writeOk: bool)
    requires Placed(k) && FloorsSeen(k, seen) && BuffersSeen(k, seen) && c in k.members
    requires k.channels[k.members[c].channelID].floor.speaker == c
    ensures var r, after := PTTUp(k, c, now, writeOk), SeenLetGo(seen, k, c, now, writeOk);
            FloorsSeen(r, after) && BuffersSeen(r, after)
  {
    var id := k.members[c].channelID;
    LetGoOutcome(k, c, now, writeOk);
    FloorStops(k, PTTUp(k, c, now, writeOk), seen, SeenLetGo(seen, k, c, now, writeOk), id,
      k.channels[id].floor.Released(c).0);
    BufferStops(k, PTTUp(k, c, now, writeOk), seen, SeenLetGo(seen, k, c, now, writeOk), id,
      k.channels[id].floor.Released(c).0);
  }

  lemma EndKeepsHistories(k: Core, seen: Seen, id: int, now: nat, writeOk: bool)
    requires HistoriesSeen(k, seen)
    ensures HistoriesSeen(k.WithRecordingEnded(id, now, writeOk), seen.Recorded(k.recorder.Ended(id, now, writeOk).1))
  {
    var rec := k.recorder.Ended(id, now, writeOk).1;
    HistoriesRecord(k, k.WithRecordingEnded(id, now, writeOk), seen, seen.Recorded(rec), rec);
  }

  lemma LetGoKeepsHistories(k: Core, seen: Seen, c: Client, now: nat, writeOk: bool)
    requires Placed(k) && HistoriesSeen(k, seen) && c in k.members
    requires k.channels[k.members[c].channelID].floor.speaker == c
    ensures HistoriesSeen(PTTUp(k, c, now, writeOk), SeenLetGo(seen, k, c, now, writeOk))
  {
    var m := k.members[c];
    var id := m.channelID;
    var rec := k.recorder.Ended(id, now, writeOk).1;
    var k1 := k.WithRecordingEnded(id, now, writeOk);
    LetGoOutcome(k, c, now, writeOk);
    EndKeepsHistories(k, seen, id, now, writeOk);
    if rec.Some? {
      HistoriesChat(k1, PTTUp(k, c, now, writeOk), seen.Recorded(rec), SeenLetGo(seen, k, c, now, writeOk), id,
        VoiceMessage(id, m, rec.value));
    } else {
      HistoriesKeep(k1, PTTUp(k, c, now, writeOk), seen.Recorded(rec), SeenLetGo(seen, k, c, now, writeOk));
    }
  }

  lemma LetGoKeepsPicture(k: Core, seen: Seen, c: Client, now: nat, writeOk: bool)
    requires Placed(k) && Consistent(k, seen) && c in k.members
    ensures Consistent(PTTUp(k, c, now, writeOk), SeenLetGo(seen, k, c, now, writeOk))
  {
    if k.channels[k.members[c].channelID].floor.speaker == c {
      LetGoKeepsFloors(k, seen, c, now, writeOk);
      LetGoKeepsHistories(k, seen, c, now, writeOk);
    }
  }

  lemma ExpireKeepsPicture(k: Core, seen: Seen, id: int, t: nat, now: nat, writeOk: bool)
    requires Placed(k) && Consistent(k, seen) && id in k.channels && t < |k.channels[id].floor.timers|
    ensures Consistent(TimeOut(k, id, t, now, writeOk), SeenExpire(seen, k, id, now, writeOk))
  {
    var f := k.channels[id].floor.TimedOut(t);
    var r, after := TimeOut(k, id, t, now, writeOk), SeenExpire(seen, k, id, now, writeOk);
    if k.channels[id].floor.speaker != null {
      FloorStops(k, r, seen, after, id, f);
      BufferStops(k, r, seen, after, id, f);
      HistoriesRecord(k, r, seen, after, k.recorder.Ended(id, now, writeOk).1);
    } else {
      FloorStays(k, r, seen, id, f);
      HistoriesKeep(k, r, seen, after);
    }
  }

  lemma BufferGrows(k: Core, seen: Seen, id: int, payload: seq<byte>)
    requires BuffersSeen(k, seen) && id in k.channels
    ensures BuffersSeen(k.(recorder := k.recorder.Appended(id, payload)), seen.Hearing(id, payload))
    ensures payload == [] ==> BuffersSeen(k, seen.Hearing(id, payload))
  {
  }

  lemma PacketKeepsPicture(k: Core, seen: Seen, c: Client, data: seq<byte>)
    requires Consistent(k, seen) && c in k.members
    ensures Consistent(BinaryAudio(k, c, data), SeenPacket(seen, k, c, data))
  {
    if Accepts(k, c, data) {
      var p := Protocol.ParseAudioHeaderQuick(data).value;
      BufferGrows(k, seen, p.channelID, p.payload);
      HistoriesKeep(k, BinaryAudio(k, c, data), seen, SeenPacket(seen, k, c, data));
    }
  }

  lemma SayKeepsPicture(k: Core, seen: Seen, c: Client, text: string, fileURL: string)
    requires Placed(k) && Consistent(k, seen) && c in k.members
    ensures Consistent(PostChat(k, c, text, fileURL), SeenSay(seen, k, c, text, fileURL))
  {
    if !(ChatText(text) == "" && fileURL == "") {
      HistoriesChat(k, PostChat(k, c, text, fileURL), seen, SeenSay(seen, k, c, text, fileURL),
                    k.members[c].channelID, ChatEntry(k.members[c], text, fileURL));
    }
  }

  lemma FireKeepsPicture(k: Core, seen: Seen, id: int, t: nat)
    requires Consistent(k, seen) && id in k.channels && t < |k.channels[id].floor.timers|
    ensures Consistent(k.WithFloor(id, k.channels[id].floor.Fired(t)), seen)
  {
  }

  lemma VideoKeepsPicture(k: Core, seen: Seen, r: Core)
    requires Consistent(k, seen) && r == k.(activeVideo := r.activeVideo)
    ensures Consistent(r, seen)
  {
  }
}
