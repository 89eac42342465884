/**
 What the hub's handlers send, step by step in the order of internal/radio/hub.go, given the core they started from.
 */
module HubMail {
  import opened Wrappers
  import opened Bytes
  import opened Messages
  import opened Clients
  import opened HubLog
  import opened HubCore
  import Protocol

  function Delivered(boxes: map<Client, Mailbox>, targets: set<Client>, f: Frame): map<Client, Mailbox> {
    map c | c in boxes :: if c in targets then boxes[c].Enqueue(f) else boxes[c]
  }

  /** Every registered client's queues, and the log of broadcasts, accepted payloads and chat entries. */
  datatype Mail = Mail(boxes: map<Client, Mailbox>, log: seq<Entry>) {
    function Deliver(targets: set<Client>, f: Frame): (r: Mail)
      ensures r.boxes.Keys == boxes.Keys
    {
      this.(boxes := Delivered(boxes, targets, f))
    }

    function Note(e: Entry): (r: Mail)
      ensures r.boxes == boxes
    {
      this.(log := Logged(log, e))
    }

    function Broadcast(targets: set<Client>, id: int, msg: Message): (r: Mail)
      ensures r.boxes.Keys == boxes.Keys && Replay(r.log) == Observe(Replay(log), Sent(OnChannel(id), msg))
    {
      Deliver(targets, Json(msg)).Note(Sent(OnChannel(id), msg))
    }

    function BroadcastAll(everyone: set<Client>, msg: Message): (r: Mail)
      ensures r.boxes.Keys == boxes.Keys && Replay(r.log) == Observe(Replay(log), Sent(Everyone, msg))
    {
      Deliver(everyone, Json(msg)).Note(Sent(Everyone, msg))
    }

    function SendJSON(c: Client, msg: Message): (r: Mail)
      ensures r.boxes.Keys == boxes.Keys && r.log == log
    {
      Deliver({c}, Json(msg))
    }

    function SendPriority(c: Client, msg: Message): (r: Mail)
      ensures r.boxes.Keys == boxes.Keys
    {
      if c in boxes then this.(boxes := boxes[c := boxes[c].EnqueuePriority(Json(msg))]) else this
    }

    function BroadcastUserList(targets: set<Client>, id: int): (r: Mail)
      ensures r.boxes.Keys == boxes.Keys && Replay(r.log) == Replay(log)
    {
      Broadcast(targets, id, UserList(id, |targets|))
    }

    /** The announcements after every release of the floor. */
    function AnnounceIdle(targets: set<Client>, everyone: set<Client>, id: int, userID: string,
                          callsign: string): (r: Mail)
      ensures r.boxes.Keys == boxes.Keys && Replay(r.log) == Replay(log).Stopped(id, userID)
    {
      Broadcast(targets, id, FloorStatusChange(id, Idle, "", "", ""))
        .Broadcast(targets, id, UserStopped(id, userID, callsign))
        .BroadcastAll(everyone, ChannelActivity(id, false))
    }

    function AnnounceVideoEnd(targets: set<Client>, id: int, m: Member): (r: Mail)
      ensures r.boxes.Keys == boxes.Keys && Replay(r.log) == Replay(log)
    {
      Broadcast(targets, id, VideoCallEnd(id, m.id, m.callsign))
    }

    function AnnounceRecording(targets: set<Client>, id: int, rec: Option<VoiceRecording>): (r: Mail)
      ensures r.boxes.Keys == boxes.Keys && Replay(r.log) == Replay(log).Recorded(rec)
    {
      if rec.Some? then
        assert Observe(Replay(log), Sent(OnChannel(id), TransmissionRecorded(rec.value))) == Replay(log).Recorded(rec);
        Broadcast(targets, id, TransmissionRecorded(rec.value))
      else this
    }

    function AnnounceTalking(targets: set<Client>, everyone: set<Client>, id: int, c: Client, m: Member): (r: Mail)
      ensures r.boxes.Keys == boxes.Keys && Replay(r.log) == Replay(log).Talking(id, m.id)
    {
      SendPriority(c, FloorStatusChange(id, Granted, "", m.callsign, m.id))
        .Broadcast(targets, id, UserTalking(id, m.id, m.callsign))
        .BroadcastAll(everyone, ChannelActivity(id, true))
    }

    function SendHistory(k: Core, c: Client, id: int, always: bool): (r: Mail)
      ensures r.log == log && r.boxes.Keys == boxes.Keys
    {
      var hist := Lookup(k.chatHistory, id);
      var m1 := if always || |hist| > 0 then SendJSON(c, ChatHistory(id, hist)) else this;
      if id in k.activeVideo then m1.SendJSON(c, VideoCallStart(k.activeVideo[id])) else m1
    }
  }

  function Register(mail: Mail, k: Core, c: Client, m: Member, box: Mailbox, pick: int): (r: Mail)
    ensures r.boxes.Keys == mail.boxes[c := box].Keys
  {
    var home := Home(k, m, pick);
    var after := HubCore.Register(k, c, m, pick);
    var m1 := mail.(boxes := mail.boxes[c := box]);
    var m2 := if home in k.channels then m1.BroadcastUserList(k.Subs(home) + {c}, home) else m1;
    m2.SendJSON(c, ClientWelcome(m.id, m.callsign, home)).SendJSON(c, ChannelList(GetChannelList(after)))
      .SendHistory(after, c, home, false)
  }

  function Unregister(mail: Mail, k: Core, c: Client): (r: Mail)
    requires c in k.members
    ensures r.boxes.Keys == (mail.boxes - {c}).Keys
  {
    var m := k.members[c];
    var id := m.channelID;
    var targets := k.Subs(id) - {c};
    var m1 := mail.(boxes := mail.boxes - {c});
    if id !in k.channels then m1
    else
      var m2 := m1.BroadcastUserList(targets, id);
      var m3 := if k.IsVideoSender(id, m.id) then m2.AnnounceVideoEnd(targets, id, m) else m2;
      if k.channels[id].floor.speaker == c then m3.AnnounceIdle(targets, k.members.Keys - {c}, id, m.id, m.callsign)
        else m3
  }

  function Identify(mail: Mail, k: Core, c: Client, callsign: string, role: string): (r: Mail)
    requires c in k.members
    ensures r.boxes.Keys == mail.boxes.Keys
  {
    var id := k.members[c].channelID;
    if callsign != "" && id in k.channels then mail.BroadcastUserList(k.Subs(id), id) else mail
  }

  function Leave(mail: Mail, k: Core, c: Client): (r: Mail)
    requires c in k.members
    ensures r.boxes.Keys == mail.boxes.Keys
  {
    var m := k.members[c];
    var id := m.channelID;
    var targets := k.Subs(id) - {c};
    if id !in k.channels then mail
    else
      var m1 := mail.BroadcastUserList(targets, id);
      var m2 := if k.channels[id].floor.speaker == c then m1.AnnounceIdle(targets, k.members.Keys, id, m.id, m.callsign)
        else m1;
      if k.IsVideoSender(id, m.id) then m2.AnnounceVideoEnd(targets, id, m) else m2
  }

  function Arrive(mail: Mail, k: Core, c: Client, id: int): (r: Mail)
    requires c in k.members && id in k.channels
    ensures r.boxes.Keys == mail.boxes.Keys
  {
    var speaker := SpeakerOf(k.channels[id].floor);
    mail.BroadcastUserList(k.Subs(id) + {c}, id)
      .SendJSON(c, FloorStatusChange(id, if speaker != null then Busy else Idle, "", k.CallsignOf(speaker), ""))
      .SendHistory(k, c, id, true)
  }

  function SwitchChannel(mail: Mail, k: Core, c: Client, id: int, password: string): (r: Mail)
    requires c in k.members
    ensures r.boxes.Keys == mail.boxes.Keys
  {
    match JudgeSwitch(k, c, id, password)
    case NoSuchChannel => mail.SendJSON(c, ErrorText("channel does not exist"))
    case Stay => mail
    case WrongPassword => mail.SendJSON(c, ErrorText("incorrect password for private channel"))
    case Enter => Arrive(Leave(mail, k, c), HubCore.Leave(k, c), c, id)
  }

  function CreateChannel(mail: Mail, k: Core, c: Client, name: string, isPrivate: bool, password: string): (r: Mail)
    requires c in k.members
    ensures r.boxes.Keys == mail.boxes.Keys
  {
    if name == "" then mail
    else
      var k1 := AddChannel(k, name, isPrivate, password);
      var m1 := mail.BroadcastAll(k.members.Keys, ChannelList(GetChannelList(k1)));
      SwitchChannel(m1, k1, c, NewChannelID(k), password)
  }

  /** The preempted speaker's recording ends, and it is told before the winner. */
  function AnnouncePreemption(mail: Mail, k: Core, id: int, loser: Client, m: Member, now: nat,
                              writeOk: bool): (r: Mail)
    ensures r.boxes.Keys == mail.boxes.Keys
    ensures Replay(r.log) == Replay(mail.log).Recorded(k.recorder.Ended(id, now, writeOk).1)
  {
    mail.AnnounceRecording(k.Subs(id), id, k.recorder.Ended(id, now, writeOk).1)
      .SendPriority(loser, FloorStatusChange(id, Denied, "preempted_by_dispatcher", m.callsign, m.id))
  }

  function PTTDown(mail: Mail, k: Core, c: Client, now: nat, writeOk: bool): (r: Mail)
    requires c in k.members
    ensures r.boxes.Keys == mail.boxes.Keys
  {
    var m := k.members[c];
    var id := m.channelID;
    if id !in k.channels then mail.SendJSON(c, ErrorText("channel not found"))
    else
      var reply := k.Requested(c, now).1;
      if !reply.granted
      then mail.SendPriority(c, FloorStatusChange(id, Denied, reply.reason, k.CallsignOf(reply.holder), ""))
      else
        var m1 := if reply.preempted != null then AnnouncePreemption(mail, k, id, reply.preempted, m, now, writeOk)
          else mail;
        m1.AnnounceTalking(k.Subs(id), k.members.Keys, id, c, m)
  }

  function PTTUp(mail: Mail, k: Core, c: Client, now: nat, writeOk: bool): (r: Mail)
    requires c in k.members
    ensures r.boxes.Keys == mail.boxes.Keys
  {
    var m := k.members[c];
    var id := m.channelID;
    if id !in k.channels || k.channels[id].floor.speaker != c then mail
    else
      var rec := k.recorder.Ended(id, now, writeOk).1;
      var m1 := mail.AnnounceRecording(k.Subs(id), id, rec);
      (if rec.Some? then m1.Note(Wrote(id, VoiceMessage(id, m, rec.value))) else m1)
        .AnnounceIdle(k.Subs(id), k.members.Keys, id, m.id, m.callsign)
  }

  function TimeOut(mail: Mail, k: Core, id: int, now: nat, writeOk: bool): (r: Mail)
    requires id in k.channels
    ensures r.boxes.Keys == mail.boxes.Keys
  {
    var speaker := k.channels[id].floor.speaker;
    if speaker == null then mail
    else
      mail.AnnounceRecording(k.Subs(id), id, k.recorder.Ended(id, now, writeOk).1)
        .SendJSON(speaker, FloorStatusChange(id, Timeout, "time_out_timer_exceeded", "", ""))
        .AnnounceIdle(k.Subs(id), k.members.Keys, id, k.IdOf(speaker), k.CallsignOf(speaker))
  }

  /** The channels `c` subscribes to: an All-Call reaches it once through each. */
  function Subscriptions(k: Core, c: Client): set<int> {
    set id | id in k.channels && c in k.channels[id].floor.subscribers
  }

  function DeliverAllCall(mail: Mail, k: Core, sender: Client, f: Frame): (r: Mail)
    ensures r.boxes.Keys == mail.boxes.Keys
  {
    mail.(boxes := map c | c in mail.boxes ::
      if c == sender then mail.boxes[c] else mail.boxes[c].EnqueueTimes(f, |Subscriptions(k, c)|))
  }

  function BinaryAudio(mail: Mail, k: Core, c: Client, data: seq<byte>): (r: Mail)
    requires c in k.members
    ensures r.boxes.Keys == mail.boxes.Keys
  {
    if !Accepts(k, c, data) then mail
    else
      var p := Protocol.ParseAudioHeaderQuick(data).value;
      var m1 := mail.Note(Heard(p.channelID, p.payload));
      if Protocol.IsAllCall(p.flags) then DeliverAllCall(m1, k, c, Audio(data))
      else m1.Deliver(k.Subs(p.channelID) - {c}, Audio(data))
  }

  /** Audio from a gateway reaches every subscriber, whoever holds the floor. */
  function RoIPAudio(mail: Mail, k: Core, id: int, data: seq<byte>): (r: Mail)
    ensures r.boxes.Keys == mail.boxes.Keys
  {
    if id in k.channels then mail.Deliver(k.Subs(id), Audio(data)) else mail
  }

  function PostChat(mail: Mail, k: Core, c: Client, text: string, fileURL: string): (r: Mail)
    requires c in k.members
    ensures r.boxes.Keys == mail.boxes.Keys
  {
    var m := k.members[c];
    if ChatText(text) == "" && fileURL == "" then mail
    else
      var msg := ChatEntry(m, text, fileURL);
      var m1 := mail.Note(Wrote(m.channelID, msg));
      if m.channelID in k.channels then m1.Broadcast(k.Subs(m.channelID), m.channelID, Chat(msg)) else m1
  }

  function StartVideo(mail: Mail, k: Core, c: Client, isScreen: bool): (r: Mail)
    requires c in k.members
    ensures r.boxes.Keys == mail.boxes.Keys
  {
    var m := k.members[c];
    if m.channelID in k.channels
    then mail.Broadcast(k.Subs(m.channelID), m.channelID, VideoCallStart(VideoOf(m, isScreen)))
    else mail
  }

  function StopVideo(mail: Mail, k: Core, c: Client): (r: Mail)
    requires c in k.members
    ensures r.boxes.Keys == mail.boxes.Keys
  {
    var m := k.members[c];
    if m.channelID in k.channels && k.IsVideoSender(m.channelID, m.id)
    then mail.AnnounceVideoEnd(k.Subs(m.channelID), m.channelID, m) else mail
  }
}
