/**
 What the hub's handlers (internal/radio/hub.go) change, each one atomic step: channels and floors, registered clients,
 the client index, chat history, video presence and the recorder. Clock readings, the outcome of a disk write and the
 first key of a map iteration are arguments.
 */
module HubCore {
  import opened Bytes
  import opened Messages
  import opened Clients
  import opened Floor
  import HubLog
  import Recorder
  import FileNames
  import Protocol
  import Roles

  const CHAT_HISTORY: nat := 30
  const MAX_CHAT_TEXT: nat := 500

  datatype ChannelState = ChannelState(definition: ChannelDef, floor: FloorState)

  datatype Core = Core(channels: map<int, ChannelState>, members: map<Client, Member>, byID: map<string, Client>,
                       chatHistory: map<int, seq<ChatMessage>>, activeVideo: map<int, Video>,
                       recorder: Recorder.RecorderState, totDuration: int) {

    function WithFloor(id: int, f: FloorState): Core
      requires id in channels
    {
      this.(channels := channels[id := channels[id].(floor := f)])
    }

    /** The subscribers of channel `id`. */
    function Subs(id: int): set<Client> {
      if id in channels then channels[id].floor.subscribers else {}
    }

    function CallsignOf(c: Client?): string {
      if c != null && c in members then members[c].callsign else ""
    }

    function IdOf(c: Client?): string {
      if c != null && c in members then members[c].id else ""
    }

    function RankOf(c: Client?): int {
      if c == null then 0 else if c in members then Roles.Priority(members[c].role) else 1
    }

    function Requested(c: Client, now: nat): (FloorState, FloorReply)
      requires c in members && members[c].channelID in channels
    {
      var f := channels[members[c].channelID].floor;
      f.Requested(c, RankOf(c), RankOf(f.speaker), now)
    }

    predicate IsVideoSender(id: int, userID: string) {
      id in activeVideo && activeVideo[id].senderID == userID
    }

    function WithoutVideoOf(id: int, userID: string): Core {
      if IsVideoSender(id, userID) then this.(activeVideo := activeVideo - {id}) else this
    }

    function WithChat(id: int, m: ChatMessage): Core {
      this.(chatHistory := chatHistory[id := Suffix(HubLog.Lookup(chatHistory, id) + [m], CHAT_HISTORY)])
    }

    function WithRecordingEnded(id: int, now: nat, writeOk: bool): (r: Core)
      ensures r == this.(recorder := r.recorder)
    {
      this.(recorder := recorder.Ended(id, now, writeOk).0)
    }
  }

  // ---- Clients ----

  /** Where a new client lands: `pick` is the channel a range over the channel map yields first. */
  function Home(k: Core, m: Member, pick: int): int {
    if m.channelID in k.channels || pick !in k.channels then m.channelID else pick
  }

  function Register(k: Core, c: Client, m: Member, pick: int): (r: Core)
  {
    var home := Home(k, m, pick);
    var k1 := k.(members := k.members[c := m.(channelID := home)], byID := k.byID[m.id := c]);
    if home in k.channels then k1.WithFloor(home, k.channels[home].floor.WithSubscriber(c)) else k1
  }

  function Unregister(k: Core, c: Client): (r: Core)
    requires c in k.members
    ensures r.members == k.members - {c}
  {
    var m := k.members[c];
    var k1 := k.(members := k.members - {c}, byID := k.byID - {m.id});
    if m.channelID !in k.channels then k1
    else
      k1.WithFloor(m.channelID, k.channels[m.channelID].floor.WithoutSubscriber(c).0).WithoutVideoOf(m.channelID, m.id)
  }

  function Identify(k: Core, c: Client, callsign: string, role: string): (r: Core)
    requires c in k.members
    ensures r == k.(members := r.members) && r.members.Keys == k.members.Keys
  {
    if callsign == "" then k
    else
      var m := k.members[c];
      k.(members := k.members[c := m.(callsign := callsign, role := if role != "" then role else m.role)])
  }

  // ---- Channels ----

  datatype Verdict = Enter | Stay | NoSuchChannel | WrongPassword

  function JudgeSwitch(k: Core, c: Client, id: int, password: string): Verdict
    requires c in k.members
  {
    if id !in k.channels then NoSuchChannel
    else if k.members[c].channelID == id then Stay
    else if k.channels[id].definition.isPrivate && k.channels[id].definition.password != password then WrongPassword
    else Enter
  }

  function Leave(k: Core, c: Client): (r: Core)
    requires c in k.members
    ensures r.members == k.members && r.channels.Keys == k.channels.Keys
  {
    var m := k.members[c];
    if m.channelID !in k.channels then k
    else
      k.WithFloor(m.channelID, k.channels[m.channelID].floor.WithoutSubscriber(c).0).WithoutVideoOf(m.channelID, m.id)
  }

  function Arrive(k: Core, c: Client, id: int): (r: Core)
    requires c in k.members && id in k.channels
  {
    k.(members := k.members[c := k.members[c].(channelID := id)]).WithFloor(id, k.channels[id].floor.WithSubscriber(c))
  }

  function SwitchChannel(k: Core, c: Client, id: int, password: string): (r: Core)
    requires c in k.members
    ensures r.members.Keys == k.members.Keys && r.channels.Keys == k.channels.Keys
  {
    if JudgeSwitch(k, c, id, password).Enter? then Arrive(Leave(k, c), c, id) else k
  }

  function Above(keys: set<int>, n: int): set<int> {
    set k | k in keys && n <= k
  }

  /** The first number from `n` on that is not a key. */
  function FirstFree(keys: set<int>, n: nat): (id: nat)
    ensures n <= id && id !in keys
    ensures forall k :: n <= k < id ==> k in keys
    decreases Above(keys, n)
  {
    if n !in keys then n
    else
      assert n in Above(keys, n) && n !in Above(keys, n + 1);
      FirstFree(keys, n + 1)
  }

  function NewChannelID(k: Core): nat {
    FirstFree(k.channels.Keys, |k.channels| + 1)
  }

  function AddChannel(k: Core, name: string, isPrivate: bool, password: string): Core {
    var id := NewChannelID(k);
    k.(channels := k.channels[id := ChannelState(ChannelDef(id, name, isPrivate, password), NewFloor(k.totDuration))])
  }

  function CreateChannel(k: Core, c: Client, name: string, isPrivate: bool, password: string): (r: Core)
    requires c in k.members
    ensures r.members.Keys == k.members.Keys
  {
    if name == "" then k
    else SwitchChannel(AddChannel(k, name, isPrivate, password), c, NewChannelID(k), password)
  }

  // ---- The floor ----

  function PTTDown(k: Core, c: Client, now: nat, writeOk: bool): (r: Core)
    requires c in k.members
    ensures r == k.(channels := r.channels, recorder := r.recorder) && r.channels.Keys == k.channels.Keys
  {
    var m := k.members[c];
    var id := m.channelID;
    if id !in k.channels then k
    else
      var (floor, reply) := k.Requested(c, now);
      var k1 := k.WithFloor(id, floor);
      if !reply.granted then k1
      else
        var k2 := if reply.preempted != null then k1.WithRecordingEnded(id, now, writeOk) else k1;
        k2.(recorder := k2.recorder.Started(id, m, now))
  }

  function VoiceMessage(id: int, m: Member, rec: VoiceRecording): ChatMessage {
    ChatMessage(id, m.id, m.callsign, Voice(rec.durationTenths, rec.fileURL, FileNames.Base(rec.fileURL)))
  }

  function PTTUp(k: Core, c: Client, now: nat, writeOk: bool): (r: Core)
    requires c in k.members
    ensures r == k.(channels := r.channels, recorder := r.recorder, chatHistory := r.chatHistory)
    ensures r.channels.Keys == k.channels.Keys
  {
    var m := k.members[c];
    var id := m.channelID;
    if id !in k.channels || !k.channels[id].floor.Released(c).1 then k
    else
      var k1 := k.WithFloor(id, k.channels[id].floor.Released(c).0).WithRecordingEnded(id, now, writeOk);
      var rec := k.recorder.Ended(id, now, writeOk).1;
      if rec.Some? then k1.WithChat(id, VoiceMessage(id, m, rec.value)) else k1
  }

  /** The callback of timer `t` of channel `id` gets the lock. */
  function TimeOut(k: Core, id: int, t: nat, now: nat, writeOk: bool): (r: Core)
    requires id in k.channels && t < |k.channels[id].floor.timers|
    ensures r == k.(channels := r.channels, recorder := r.recorder) && r.channels.Keys == k.channels.Keys
  {
    var f := k.channels[id].floor;
    var k1 := k.WithFloor(id, f.TimedOut(t));
    if f.speaker == null then k1 else k1.WithRecordingEnded(id, now, writeOk)
  }

  // ---- Audio, chat, video ----

  /** The packet passes HandleBinaryAudio's checks. */
  predicate Accepts(k: Core, c: Client, data: seq<byte>)
    requires c in k.members
  {
    var p := Protocol.ParseAudioHeaderQuick(data);
    && p.Some? && p.value.channelID in k.channels
    && k.members[c].channelID == p.value.channelID
    && k.channels[p.value.channelID].floor.isBusy && k.channels[p.value.channelID].floor.speaker == c
  }

  function BinaryAudio(k: Core, c: Client, data: seq<byte>): (r: Core)
    requires c in k.members
    ensures r == k.(recorder := r.recorder)
  {
    if !Accepts(k, c, data) || |data| <= Protocol.AUDIO_HEADER_SIZE then k
    else
      var p := Protocol.ParseAudioHeaderQuick(data).value;
      k.(recorder := k.recorder.Appended(p.channelID, p.payload))
  }

  function ChatText(text: string): string {
    var t := Roles.TrimSpace(text);
    if |t| > MAX_CHAT_TEXT then t[..MAX_CHAT_TEXT] else t
  }

  function ChatEntry(m: Member, text: string, fileURL: string): ChatMessage {
    ChatMessage(m.channelID, m.id, m.callsign, Text(ChatText(text), fileURL))
  }

  function PostChat(k: Core, c: Client, text: string, fileURL: string): (r: Core)
    requires c in k.members
    ensures r == k.(chatHistory := r.chatHistory)
  {
    if ChatText(text) == "" && fileURL == "" then k
    else k.WithChat(k.members[c].channelID, ChatEntry(k.members[c], text, fileURL))
  }

  function VideoOf(m: Member, isScreen: bool): Video {
    Video(m.channelID, m.id, m.callsign, isScreen)
  }

  function StartVideo(k: Core, c: Client, isScreen: bool): (r: Core)
    requires c in k.members
    ensures r == k.(activeVideo := r.activeVideo)
  {
    var m := k.members[c];
    k.(activeVideo := k.activeVideo[m.channelID := VideoOf(m, isScreen)])
  }

  function StopVideo(k: Core, c: Client): (r: Core)
    requires c in k.members
    ensures r == k.(activeVideo := r.activeVideo)
  {
    k.WithoutVideoOf(k.members[c].channelID, k.members[c].id)
  }

  // ---- The channel list ----

  /** Channel.GetState: the speaker of a busy channel. */
  function SpeakerOf(f: FloorState): Client? {
    if f.isBusy then f.speaker else null
  }

  function InfoOf(k: Core, id: int): ChannelInfo
    requires id in k.channels
  {
    var ch := k.channels[id];
    ChannelInfo(ch.definition.id, ch.definition.name, ch.definition.isPrivate, |ch.floor.subscribers|,
                SpeakerOf(ch.floor) != null, k.CallsignOf(SpeakerOf(ch.floor)))
  }

  /** The loop of GetChannelList up to `last`: missing numbers are skipped. */
  function ChannelInfos(k: Core, last: nat): seq<ChannelInfo> {
    if last == 0 then []
    else ChannelInfos(k, last - 1) + if last in k.channels then [InfoOf(k, last)] else []
  }

  function GetChannelList(k: Core): seq<ChannelInfo> {
    ChannelInfos(k, |k.channels|)
  }
}
