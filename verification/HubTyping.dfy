/** How frames leave on the socket: in every run, audio as binary messages and JSON as text. */
module HubTyping {
  import opened Wrappers
  import opened Bytes
  import opened Messages
  import opened Clients
  import HubLog
  import opened HubCore
  import opened HubRuns
  import HubMail
  import HubSystem
  import Protocol

  type Mail = HubMail.Mail

  /** Audio in `send` parses as a packet; the priority queue holds only messages. */
  ghost predicate WellTyped(box: Mailbox) {
    && (forall f <- box.send :: f.Audio? ==> Protocol.ParseAudioHeader(f.data).Some?)
    && (forall f <- box.highPri :: f.Json?)
  }

  /** Every frame a client's queues can hold leaves typed as what it is: audio binary, messages text. */
  lemma QueuedFramesLeaveTyped(box: Mailbox, f: Frame, wire: seq<byte>)
    requires WellTyped(box) && (f in box.send || f in box.highPri) && Marshals(f, wire)
    ensures MessageType(wire) == if f.Audio? then BinaryMessage else TextMessage
  {
  }

  lemma EnqueueKeepsTyping(box: Mailbox, f: Frame)
    requires WellTyped(box)
    ensures (f.Json? || Protocol.ParseAudioHeader(f.data).Some?) ==> WellTyped(box.Enqueue(f))
    ensures f.Json? ==> WellTyped(box.EnqueuePriority(f))
  {
  }

  lemma {:induction false} EnqueueTimesKeepsTyping(box: Mailbox, f: Frame, n: nat)
    requires WellTyped(box) && (f.Json? || Protocol.ParseAudioHeader(f.data).Some?)
    ensures WellTyped(box.EnqueueTimes(f, n))
  {
    if n > 0 {
      EnqueueTimesKeepsTyping(box, f, n - 1);
      EnqueueKeepsTyping(box.EnqueueTimes(f, n - 1), f);
    }
  }

  ghost predicate AllTyped(mail: Mail) {
    forall c <- mail.boxes :: WellTyped(mail.boxes[c])
  }

  lemma DeliverKeepsTyping(mail: Mail, targets: set<Client>, f: Frame)
    requires AllTyped(mail) && (f.Json? || Protocol.ParseAudioHeader(f.data).Some?)
    ensures AllTyped(mail.Deliver(targets, f))
  {
  }

  lemma GatewayPacketKeepsTyping(mail: Mail, k: Core, id: int, data: seq<byte>)
    requires AllTyped(mail) && Protocol.ParseAudioHeader(data).Some?
    ensures AllTyped(HubMail.RoIPAudio(mail, k, id, data))
  {
  }

  lemma PacketKeepsTyping(mail: Mail, k: Core, c: Client, data: seq<byte>)
    requires AllTyped(mail) && c in k.members
    ensures AllTyped(HubMail.BinaryAudio(mail, k, c, data))
  {
    Protocol.ParsersAgree(data);
    if Accepts(k, c, data) {
      var p := Protocol.ParseAudioHeaderQuick(data).value;
      var m1 := mail.Note(HubLog.Heard(p.channelID, p.payload));
      if Protocol.IsAllCall(p.flags) {
        forall d <- m1.boxes ensures WellTyped(HubMail.DeliverAllCall(m1, k, c, Audio(data)).boxes[d]) {
          EnqueueTimesKeepsTyping(m1.boxes[d], Audio(data), |HubMail.Subscriptions(k, d)|);
        }
      } else {
        DeliverKeepsTyping(m1, k.Subs(p.channelID) - {c}, Audio(data));
      }
    }
  }

  lemma PriorityKeepsTyping(mail: Mail, c: Client, msg: Message)
    requires AllTyped(mail)
    ensures AllTyped(mail.SendPriority(c, msg))
  {
  }

  lemma BroadcastsKeepTyping(mail: Mail, targets: set<Client>, id: int, msg: Message)
    requires AllTyped(mail)
    ensures AllTyped(mail.Broadcast(targets, id, msg)) && AllTyped(mail.BroadcastAll(targets, msg))
  {
  }

  lemma SendJSONKeepsTyping(mail: Mail, c: Client, msg: Message)
    requires AllTyped(mail)
    ensures AllTyped(mail.SendJSON(c, msg))
  {
  }

  lemma IdleKeepsTyping(mail: Mail, targets: set<Client>, everyone: set<Client>, id: int, userID: string,
                        callsign: string)
    requires AllTyped(mail)
    ensures AllTyped(mail.AnnounceIdle(targets, everyone, id, userID, callsign))
  {
    var m1 := mail.Broadcast(targets, id, FloorStatusChange(id, Idle, "", "", ""));
    BroadcastsKeepTyping(mail, targets, id, FloorStatusChange(id, Idle, "", "", ""));
    BroadcastsKeepTyping(m1, targets, id, UserStopped(id, userID, callsign));
    BroadcastsKeepTyping(m1.Broadcast(targets, id, UserStopped(id, userID, callsign)), everyone, id,
      ChannelActivity(id, false));
  }

  lemma TalkingKeepsTyping(mail: Mail, targets: set<Client>, everyone: set<Client>, id: int, c: Client, m: Member)
    requires AllTyped(mail)
    ensures AllTyped(mail.AnnounceTalking(targets, everyone, id, c, m))
  {
    var m1 := mail.SendPriority(c, FloorStatusChange(id, Granted, "", m.callsign, m.id));
    PriorityKeepsTyping(mail, c, FloorStatusChange(id, Granted, "", m.callsign, m.id));
    BroadcastsKeepTyping(m1, targets, id, UserTalking(id, m.id, m.callsign));
    BroadcastsKeepTyping(m1.Broadcast(targets, id, UserTalking(id, m.id, m.callsign)), everyone, id,
      ChannelActivity(id, true));
  }

  lemma RecordingKeepsTyping(mail: Mail, targets: set<Client>, id: int, rec: Option<VoiceRecording>)
    requires AllTyped(mail)
    ensures AllTyped(mail.AnnounceRecording(targets, id, rec))
  {
  }

  lemma HistoryKeepsTyping(mail: Mail, k: Core, c: Client, id: int, always: bool)
    requires AllTyped(mail)
    ensures AllTyped(mail.SendHistory(k, c, id, always))
  {
  }

  lemma UserListKeepsTyping(mail: Mail, targets: set<Client>, id: int)
    requires AllTyped(mail)
    ensures AllTyped(mail.BroadcastUserList(targets, id))
  {
  }

  lemma RegisterKeepsTyping(mail: Mail, k: Core, c: Client, m: Member, pick: int)
    requires AllTyped(mail)
    ensures AllTyped(HubMail.Register(mail, k, c, m, Mailbox([], [], false), pick))
  {
    var home, after := Home(k, m, pick), Register(k, c, m, pick);
    var m1 := mail.(boxes := mail.boxes[c := Mailbox([], [], false)]);
    UserListKeepsTyping(m1, k.Subs(home) + {c}, home);
    var m2 := if home in k.channels then m1.BroadcastUserList(k.Subs(home) + {c}, home) else m1;
    SendJSONKeepsTyping(m2, c, ClientWelcome(m.id, m.callsign, home));
    var m3 := m2.SendJSON(c, ClientWelcome(m.id, m.callsign, home));
    SendJSONKeepsTyping(m3, c, ChannelList(GetChannelList(after)));
    HistoryKeepsTyping(m3.SendJSON(c, ChannelList(GetChannelList(after))), after, c, home, false);
  }

  lemma DepartureKeepsTyping(mail: Mail, k: Core, c: Client)
    requires AllTyped(mail) && c in k.members
    ensures AllTyped(HubMail.Leave(mail, k, c))
  {
    var m := k.members[c];
    var id := m.channelID;
    var targets := k.Subs(id) - {c};
    UserListKeepsTyping(mail, targets, id);
    var m1 := mail.BroadcastUserList(targets, id);
    IdleKeepsTyping(m1, targets, k.members.Keys, id, m.id, m.callsign);
    var m2 := if id in k.channels && k.channels[id].floor.speaker == c
              then m1.AnnounceIdle(targets, k.members.Keys, id, m.id, m.callsign) else m1;
    BroadcastsKeepTyping(m2, targets, id, VideoCallEnd(id, m.id, m.callsign));
  }

  lemma UnregisterKeepsTyping(mail: Mail, k: Core, c: Client)
    requires AllTyped(mail) && c in k.members
    ensures AllTyped(HubMail.Unregister(mail, k, c))
  {
    var m := k.members[c];
    var id := m.channelID;
    var targets := k.Subs(id) - {c};
    var m1 := mail.(boxes := mail.boxes - {c});
    if id !in k.channels {
      return;
    }
    UserListKeepsTyping(m1, targets, id);
    var m2 := m1.BroadcastUserList(targets, id);
    BroadcastsKeepTyping(m2, targets, id, VideoCallEnd(id, m.id, m.callsign));
    var m3 := if k.IsVideoSender(id, m.id) then m2.AnnounceVideoEnd(targets, id, m) else m2;
    IdleKeepsTyping(m3, targets, k.members.Keys - {c}, id, m.id, m.callsign);
  }

  lemma ArrivalKeepsTyping(mail: Mail, k: Core, c: Client, id: int)
    requires AllTyped(mail) && c in k.members && id in k.channels
    ensures AllTyped(HubMail.Arrive(mail, k, c, id))
  {
    var speaker := SpeakerOf(k.channels[id].floor);
    var status := FloorStatusChange(id, if speaker != null then Busy else Idle, "", k.CallsignOf(speaker), "");
    UserListKeepsTyping(mail, k.Subs(id) + {c}, id);
    var m1 := mail.BroadcastUserList(k.Subs(id) + {c}, id);
    SendJSONKeepsTyping(m1, c, status);
    HistoryKeepsTyping(m1.SendJSON(c, status), k, c, id, true);
  }

  lemma SwitchKeepsTyping(mail: Mail, k: Core, c: Client, id: int, password: string)
    requires AllTyped(mail) && c in k.members
    ensures AllTyped(HubMail.SwitchChannel(mail, k, c, id, password))
  {
    match JudgeSwitch(k, c, id, password)
    case NoSuchChannel => SendJSONKeepsTyping(mail, c, ErrorText("channel does not exist"));
    case Stay =>
    case WrongPassword => SendJSONKeepsTyping(mail, c, ErrorText("incorrect password for private channel"));
    case Enter =>
      DepartureKeepsTyping(mail, k, c);
      ArrivalKeepsTyping(HubMail.Leave(mail, k, c), HubCore.Leave(k, c), c, id);
  }

  lemma CreateKeepsTyping(mail: Mail, k: Core, c: Client, name: string, isPrivate: bool, password: string)
    requires AllTyped(mail) && c in k.members
    ensures AllTyped(HubMail.CreateChannel(mail, k, c, name, isPrivate, password))
  {
    if name != "" {
      var k1 := AddChannel(k, name, isPrivate, password);
      BroadcastsKeepTyping(mail, k.members.Keys, 0, ChannelList(GetChannelList(k1)));
      var m1 := mail.BroadcastAll(k.members.Keys, ChannelList(GetChannelList(k1)));
      SwitchKeepsTyping(m1, k1, c, NewChannelID(k), password);
    }
  }

  lemma PressKeepsTyping(mail: Mail, k: Core, c: Client, now: nat, writeOk: bool)
    requires AllTyped(mail) && c in k.members
    ensures AllTyped(HubMail.PTTDown(mail, k, c, now, writeOk))
  {
    var m := k.members[c];
    var id := m.channelID;
    if id !in k.channels {
      SendJSONKeepsTyping(mail, c, ErrorText("channel not found"));
    } else {
      var reply := k.Requested(c, now).1;
      PriorityKeepsTyping(mail, c, FloorStatusChange(id, Denied, reply.reason, k.CallsignOf(reply.holder), ""));
      var m1 := mail;
      if reply.preempted != null {
        var rec := k.recorder.Ended(id, now, writeOk).1;
        RecordingKeepsTyping(mail, k.Subs(id), id, rec);
        PriorityKeepsTyping(mail.AnnounceRecording(k.Subs(id), id, rec), reply.preempted,
          FloorStatusChange(id, Denied, "preempted_by_dispatcher", m.callsign, m.id));
        m1 := HubMail.AnnouncePreemption(mail, k, id, reply.preempted, m, now, writeOk);
      }
      TalkingKeepsTyping(m1, k.Subs(id), k.members.Keys, id, c, m);
    }
  }

  lemma LetGoKeepsTyping(mail: Mail, k: Core, c: Client, now: nat, writeOk: bool)
    requires AllTyped(mail) && c in k.members
    ensures AllTyped(HubMail.PTTUp(mail, k, c, now, writeOk))
  {
    var m := k.members[c];
    var id := m.channelID;
    if id in k.channels {
      var rec := k.recorder.Ended(id, now, writeOk).1;
      RecordingKeepsTyping(mail, k.Subs(id), id, rec);
      var m1 := mail.AnnounceRecording(k.Subs(id), id, rec);
      var m2 := if rec.Some? then m1.Note(HubLog.Wrote(id, VoiceMessage(id, m, rec.value))) else m1;
      IdleKeepsTyping(m2, k.Subs(id), k.members.Keys, id, m.id, m.callsign);
    }
  }

  lemma ExpireKeepsTyping(mail: Mail, k: Core, id: int, now: nat, writeOk: bool)
    requires AllTyped(mail) && id in k.channels
    ensures AllTyped(HubMail.TimeOut(mail, k, id, now, writeOk))
  {
    var speaker := k.channels[id].floor.speaker;
    if speaker != null {
      var rec := k.recorder.Ended(id, now, writeOk).1;
      RecordingKeepsTyping(mail, k.Subs(id), id, rec);
      var m1 := mail.AnnounceRecording(k.Subs(id), id, rec);
      var notice := FloorStatusChange(id, Timeout, "time_out_timer_exceeded", "", "");
      SendJSONKeepsTyping(m1, speaker, notice);
      IdleKeepsTyping(m1.SendJSON(speaker, notice), k.Subs(id), k.members.Keys, id, k.IdOf(speaker),
        k.CallsignOf(speaker));
    }
  }

  lemma OtherSignalsKeepTyping(mail: Mail, k: Core, e: Event)
    requires AllTyped(mail) && Enabled(k, e) && (e.SetIdentity? || e.Say? || e.VideoOn? || e.VideoOff?)
    ensures AllTyped(HubSystem.NextMail(mail, k, e))
  {
    var m := k.members[e.client];
    var id := m.channelID;
    match e
    case SetIdentity(_, _, _) => UserListKeepsTyping(mail, k.Subs(id), id);
    case Say(_, text, fileURL) =>
      var entry := ChatEntry(m, text, fileURL);
      BroadcastsKeepTyping(mail.Note(HubLog.Wrote(id, entry)), k.Subs(id), id, Chat(entry));
    case VideoOn(_, isScreen) => BroadcastsKeepTyping(mail, k.Subs(id), id, VideoCallStart(VideoOf(m, isScreen)));
    case VideoOff(_) => BroadcastsKeepTyping(mail, k.Subs(id), id, VideoCallEnd(id, m.id, m.callsign));
  }

  /** Every step keeps every queue well typed, given that the gateway passes on only what its header check accepted. */
  lemma StepKeepsTyping(mail: Mail, k: Core, e: Event)
    requires AllTyped(mail) && Enabled(k, e)
    requires e.GatewayPacket? ==> Protocol.ParseAudioHeader(e.data).Some?
    ensures AllTyped(HubSystem.NextMail(mail, k, e))
  {
    match e
    case Connect(c, m, pick) => RegisterKeepsTyping(mail, k, c, m, pick);
    case Disconnect(c) => UnregisterKeepsTyping(mail, k, c);
    case Join(c, id, password) => SwitchKeepsTyping(mail, k, c, id, password);
    case Create(c, name, isPrivate, password) => CreateKeepsTyping(mail, k, c, name, isPrivate, password);
    case Press(c, now, ok) => PressKeepsTyping(mail, k, c, now, ok);
    case LetGo(c, now, ok) => LetGoKeepsTyping(mail, k, c, now, ok);
    case FireTimer(_, _) =>
    case Expire(id, _, now, ok) => ExpireKeepsTyping(mail, k, id, now, ok);
    case Packet(c, data) => PacketKeepsTyping(mail, k, c, data);
    case GatewayPacket(id, data) => GatewayPacketKeepsTyping(mail, k, id, data);
    case _ => OtherSignalsKeepTyping(mail, k, e);
  }

  lemma DrainingKeepsTyping(a: Mail, b: Mail)
    requires AllTyped(a) && HubSystem.Drained(a, b)
    ensures AllTyped(b)
  {
  }

  /** In every run, whatever a queue holds leaves with the right message type. */
  lemma {:induction false} RunKeepsTyping(cores: seq<Core>, mails: seq<Mail>, events: seq<Event>, i: nat)
    requires HubSystem.IsSystemRun(cores, mails, events) && i < |cores|
    requires forall e <- events :: e.GatewayPacket? ==> Protocol.ParseAudioHeader(e.data).Some?
    ensures AllTyped(mails[i])
  {
    if i > 0 {
      RunKeepsTyping(cores, mails, events, i - 1);
      assert events[i - 1] in events;
      StepKeepsTyping(mails[i - 1], cores[i - 1], events[i - 1]);
      DrainingKeepsTyping(HubSystem.NextMail(mails[i - 1], cores[i - 1], events[i - 1]), mails[i]);
    }
  }
}
