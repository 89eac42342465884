/**
 What the hub announces: every step logs exactly what changed between the states before and after it, told from these
 states and not from the handlers.
 */
module HubNews {
  import opened Clients
  import opened Floor
  import opened HubCore
  import opened HubLog
  import opened HubRuns
  import opened HubTiming
  import opened Messages
  import FileNames
  import HubMail
  import HubObserver
  import HubSystem
  import Roles

  type Mail = HubMail.Mail

  // ---- News ----

  function OnCh(id: int, msg: Message): Entry {
    Sent(OnChannel(id), msg)
  }

  /** Channel `id` has another number of subscribers. */
  function Members(r: Core, id: int): seq<Entry> {
    [OnCh(id, UserList(id, |r.Subs(id)|))]
  }

  /** A user talks on channel `id`. */
  function Talks(id: int, userID: string, callsign: string): seq<Entry> {
    [OnCh(id, UserTalking(id, userID, callsign)), Sent(Everyone, ChannelActivity(id, true))]
  }

  /** A user has stopped talking on channel `id`, which is idle now. */
  function Stops(id: int, userID: string, callsign: string): seq<Entry> {
    [OnCh(id, FloorStatusChange(id, Idle, "", "", "")), OnCh(id, UserStopped(id, userID, callsign)),
     Sent(Everyone, ChannelActivity(id, false))]
  }

  /** Somebody spoke on channel `id`, and nobody does now. */
  function Silence(k: Core, r: Core, id: int): seq<Entry> {
    var speaker := SpeakerAt(k, id);
    if speaker != null && SpeakerAt(r, id) == null then Stops(id, k.IdOf(speaker), k.CallsignOf(speaker)) else []
  }

  /** Channel `id` had a video and has none now. */
  function Dark(k: Core, r: Core, id: int): seq<Entry> {
    if id in k.activeVideo && id !in r.activeVideo then
      var u := k.activeVideo[id].senderID;
      [OnCh(id, VideoCallEnd(id, u, if u in k.byID then k.CallsignOf(k.byID[u]) else ""))]
    else []
  }

  /** A keying of at least a tenth of a second that can be written is kept. */
  predicate IsKept(k: Core, id: int, ok: bool) {
    k.recorder.enabled && id in k.recorder.activeTX && |k.recorder.activeTX[id].pcm| >= 3200 && ok
  }

  /** The keying on channel `id` that ends now is recorded. */
  function Archived(k: Core, id: int, now: nat, ok: bool): seq<Entry> {
    if IsKept(k, id, ok) then [OnCh(id, TransmissionRecorded(k.recorder.Recording(id, now)))] else []
  }

  /** A client of channel `id` has disconnected. */
  function Left(k: Core, r: Core, id: int): seq<Entry> {
    Members(r, id) + Dark(k, r, id) + Silence(k, r, id)
  }

  /** Client `c` has created a channel: everybody gets the list, with the channel still empty, and `c` goes there. */
  function Created(k: Core, r: Core, c: Client, name: string, isPrivate: bool, password: string): seq<Entry>
    requires c in k.members && c in r.members
  {
    if name == "" then []
    else [Sent(Everyone, ChannelList(GetChannelList(AddChannel(k, name, isPrivate, password))))] + Relocated(k, r, c)
  }

  /** A client of channel `id` went to another channel. */
  function Parted(k: Core, r: Core, id: int): seq<Entry> {
    Members(r, id) + Silence(k, r, id) + Dark(k, r, id)
  }

  /** Client `c` went from one channel to another. */
  function Relocated(k: Core, r: Core, c: Client): seq<Entry>
    requires c in k.members && c in r.members
  {
    var from, to := k.members[c].channelID, r.members[c].channelID;
    if from == to then [] else Parted(k, r, from) + Members(r, to)
  }

  /** Client `c` said `text`: trimmed, and cut after 500 characters. */
  function Said(m: Member, text: string, fileURL: string): seq<Entry> {
    var t := Roles.TrimSpace(text);
    var entry := ChatMessage(m.channelID, m.id, m.callsign, Text(if |t| > 500 then t[..500] else t, fileURL));
    if t == "" && fileURL == "" then [] else [Wrote(m.channelID, entry), OnCh(m.channelID, Chat(entry))]
  }

  /** The keying of `m` on channel `id` becomes a voice message. */
  function Voiced(k: Core, id: int, m: Member, now: nat, ok: bool): seq<Entry> {
    if IsKept(k, id, ok) then
      var rec := k.recorder.Recording(id, now);
      [Wrote(id, ChatMessage(id, m.id, m.callsign,
        Voice(rec.durationTenths, rec.fileURL, FileNames.Base(rec.fileURL))))]
    else []
  }

  /** Client `c` pressed: if it speaks now, the keying it displaced has ended, and it talks. */
  function Pressed(k: Core, c: Client, now: nat, ok: bool, r: Core): seq<Entry>
    requires c in k.members
  {
    var m := k.members[c];
    var id, before := m.channelID, SpeakerAt(k, m.channelID);
    if SpeakerAt(r, id) != c then []
    else
      (if before != null && before != c then Archived(k, id, now, ok) else []) + Talks(id, m.id, m.callsign)
  }

  /** Client `c` let go: if it spoke, its keying has ended, and nobody talks. */
  function Released(k: Core, c: Client, now: nat, ok: bool, r: Core): seq<Entry>
    requires c in k.members
  {
    var m := k.members[c];
    var id := m.channelID;
    if SpeakerAt(k, id) != c then [] else Archived(k, id, now, ok) + Voiced(k, id, m, now, ok) + Silence(k, r, id)
  }

  /** The time of whoever spoke on channel `id` is over. */
  function Expired(k: Core, id: int, now: nat, ok: bool, r: Core): seq<Entry> {
    if SpeakerAt(k, id) == null then [] else Archived(k, id, now, ok) + Silence(k, r, id)
  }

  /** What is announced of the step from `k` to `r`. */
  function News(k: Core, e: Event, r: Core): seq<Entry>
    requires Enabled(k, e) && (e.Connect? || e.Join? || e.Create? ==> e.client in r.members)
  {
    match e
    case Connect(c, _, _) => Members(r, r.members[c].channelID)
    case Disconnect(c) => Left(k, r, k.members[c].channelID)
    case SetIdentity(c, callsign, _) => if callsign == "" then [] else Members(r, k.members[c].channelID)
    case Join(c, _, _) => Relocated(k, r, c)
    case Create(c, name, isPrivate, password) => Created(k, r, c, name, isPrivate, password)
    case Press(c, now, ok) => Pressed(k, c, now, ok, r)
    case LetGo(c, now, ok) => Released(k, c, now, ok, r)
    case Expire(id, _, now, ok) => Expired(k, id, now, ok, r)
    case Packet(c, data) => if Accepts(k, c, data) then [Heard(k.members[c].channelID, data[8..])] else []
    case Say(c, text, fileURL) => Said(k.members[c], text, fileURL)
    case VideoOn(c, isScreen) =>
      var m := k.members[c];
      [OnCh(m.channelID, VideoCallStart(Video(m.channelID, m.id, m.callsign, isScreen)))]
    case VideoOff(c) => Dark(k, r, k.members[c].channelID)
    case FireTimer(_, _) => []
    case GatewayPacket(_, _) => []
  }

  // ---- What the handlers log ----

  lemma Regroup<T>(a: seq<T>, b: seq<T>, c: seq<T>)
    ensures a + b + c == a + (b + c)
  {
  }

  lemma IdleLog(mail: Mail, targets: set<Client>, everyone: set<Client>, id: int, userID: string, callsign: string)
    ensures mail.AnnounceIdle(targets, everyone, id, userID, callsign).log ==
            mail.log + Stops(id, userID, callsign)
  {
  }

  lemma TalkingLog(mail: Mail, targets: set<Client>, everyone: set<Client>, id: int, c: Client, m: Member)
    ensures mail.AnnounceTalking(targets, everyone, id, c, m).log ==
            mail.log + Talks(id, m.id, m.callsign)
  {
  }

  lemma RecordingLog(mail: Mail, k: Core, id: int, now: nat, ok: bool)
    ensures mail.AnnounceRecording(k.Subs(id), id, k.recorder.Ended(id, now, ok).1).log ==
            mail.log + Archived(k, id, now, ok)
  {
  }

  /** The arbitration told from the states: who speaks afterwards, and who did before. */
  lemma ReplyTold(k: Core, c: Client, now: nat, ok: bool)
    requires Placed(k) && c in k.members
    ensures var id, reply, r := k.members[c].channelID, k.Requested(c, now).1, PTTDown(k, c, now, ok);
            && (reply.granted <==> SpeakerAt(r, id) == c)
            && reply.preempted == (if reply.granted && SpeakerAt(k, id) != c then SpeakerAt(k, id) else null)
            && (!reply.granted ==>
                  && SpeakerAt(k, id) != null && reply.holder == SpeakerAt(k, id) == SpeakerAt(r, id)
                  && reply.reason == "channel_busy")
  {
    var f := k.channels[k.members[c].channelID].floor;
    RequestGrantedIff(f, c, k.RankOf(c), k.RankOf(f.speaker), now);
    HubObserver.PressOutcome(k, c, now, ok);
  }

  /** The mail after the announcements of a preemption, if there is one. */
  function Displacing(mail: Mail, k: Core, c: Client, now: nat, ok: bool): Mail
    requires c in k.members && k.members[c].channelID in k.channels
  {
    var loser := k.Requested(c, now).1.preempted;
    if loser == null then mail
    else HubMail.AnnouncePreemption(mail, k, k.members[c].channelID, loser, k.members[c], now, ok)
  }

  lemma DisplacingLog(mail: Mail, k: Core, c: Client, now: nat, ok: bool)
    requires c in k.members && k.members[c].channelID in k.channels
    ensures Displacing(mail, k, c, now, ok).log ==
            mail.log
            + if k.Requested(c, now).1.preempted != null then Archived(k, k.members[c].channelID, now, ok) else []
  {
    RecordingLog(mail, k, k.members[c].channelID, now, ok);
  }

  lemma GrantedPress(mail: Mail, k: Core, c: Client, now: nat, ok: bool)
    requires c in k.members && k.members[c].channelID in k.channels && k.Requested(c, now).1.granted
    ensures var m := k.members[c];
            HubMail.PTTDown(mail, k, c, now, ok) ==
              Displacing(mail, k, c, now, ok).AnnounceTalking(k.Subs(m.channelID), k.members.Keys, m.channelID, c, m)
  {
  }

  lemma PressLog(mail: Mail, k: Core, c: Client, now: nat, ok: bool)
    requires c in k.members && k.members[c].channelID in k.channels
    ensures var m, reply := k.members[c], k.Requested(c, now).1;
            HubMail.PTTDown(mail, k, c, now, ok).log ==
              if !reply.granted then mail.log
              else
                mail.log + ((if reply.preempted != null then Archived(k, m.channelID, now, ok) else [])
                            + Talks(m.channelID, m.id, m.callsign))
  {
    var id, m := k.members[c].channelID, k.members[c];
    if k.Requested(c, now).1.granted {
      GrantedPress(mail, k, c, now, ok);
      DisplacingLog(mail, k, c, now, ok);
      TalkingLog(Displacing(mail, k, c, now, ok), k.Subs(id), k.members.Keys, id, c, m);
      Regroup(mail.log, if k.Requested(c, now).1.preempted != null then Archived(k, id, now, ok) else [],
        Talks(id, m.id, m.callsign));
    }
  }

  lemma PressIsNews(mail: Mail, k: Core, c: Client, now: nat, ok: bool)
    requires Placed(k) && c in k.members
    ensures HubMail.PTTDown(mail, k, c, now, ok).log == mail.log + Pressed(k, c, now, ok, PTTDown(k, c, now, ok))
  {
    ReplyTold(k, c, now, ok);
    PressLog(mail, k, c, now, ok);
  }

  /** The recording announced, and the voice message written. */
  function WithVoice(mail: Mail, k: Core, id: int, m: Member, now: nat, ok: bool): Mail {
    var rec := k.recorder.Ended(id, now, ok).1;
    var m1 := mail.AnnounceRecording(k.Subs(id), id, rec);
    if rec.Some? then m1.Note(Wrote(id, VoiceMessage(id, m, rec.value))) else m1
  }

  lemma VoiceLog(mail: Mail, k: Core, id: int, m: Member, now: nat, ok: bool)
    ensures WithVoice(mail, k, id, m, now, ok).log == mail.log + (Archived(k, id, now, ok) + Voiced(k, id, m, now, ok))
  {
    RecordingLog(mail, k, id, now, ok);
  }

  lemma LetGoLog(mail: Mail, k: Core, c: Client, now: nat, ok: bool)
    requires Placed(k) && c in k.members && SpeakerAt(k, k.members[c].channelID) == c
    ensures var m := k.members[c];
            var id := m.channelID;
            HubMail.PTTUp(mail, k, c, now, ok).log ==
              mail.log + (Archived(k, id, now, ok) + Voiced(k, id, m, now, ok) + Stops(id, m.id, m.callsign))
  {
    var m := k.members[c];
    var id := m.channelID;
    VoiceLog(mail, k, id, m, now, ok);
    IdleLog(WithVoice(mail, k, id, m, now, ok), k.Subs(id), k.members.Keys, id, m.id, m.callsign);
  }

  lemma LetGoIsNews(mail: Mail, k: Core, c: Client, now: nat, ok: bool)
    requires Placed(k) && c in k.members
    ensures HubMail.PTTUp(mail, k, c, now, ok).log == mail.log + Released(k, c, now, ok, PTTUp(k, c, now, ok))
  {
    if SpeakerAt(k, k.members[c].channelID) == c {
      HubObserver.LetGoOutcome(k, c, now, ok);
      LetGoLog(mail, k, c, now, ok);
    }
  }

  lemma ExpireIsNews(mail: Mail, k: Core, id: int, t: nat, now: nat, ok: bool)
    requires Placed(k) && id in k.channels && t < |k.channels[id].floor.timers|
    ensures HubMail.TimeOut(mail, k, id, now, ok).log == mail.log + Expired(k, id, now, ok, TimeOut(k, id, t, now, ok))
  {
    var speaker := k.channels[id].floor.speaker;
    if speaker != null {
      var m1 := mail.AnnounceRecording(k.Subs(id), id, k.recorder.Ended(id, now, ok).1);
      RecordingLog(mail, k, id, now, ok);
      var notice := FloorStatusChange(id, Timeout, "time_out_timer_exceeded", "", "");
      IdleLog(m1.SendJSON(speaker, notice), k.Subs(id), k.members.Keys, id, k.IdOf(speaker), k.CallsignOf(speaker));
      Regroup(mail.log, Archived(k, id, now, ok), Stops(id, k.IdOf(speaker), k.CallsignOf(speaker)));
    }
  }

  // ---- Moves ----

  /** What of channel `id` a departure of `c` leaves behind. */
  ghost predicate Departed(k: Core, r: Core, c: Client, id: int)
    requires c in k.members
  {
    && id in k.channels && id in r.channels && r.channels[id].floor == k.channels[id].floor.WithoutSubscriber(c).0
    && (id in r.activeVideo <==> id in k.activeVideo && !k.IsVideoSender(id, k.members[c].id))
  }

  lemma DepartureTold(k: Core, r: Core, c: Client)
    requires Placed(k) && c in k.members && Departed(k, r, c, k.members[c].channelID)
    ensures var m, id := k.members[c], k.members[c].channelID;
            && Silence(k, r, id) == (if k.channels[id].floor.speaker == c then Stops(id, m.id, m.callsign) else [])
            && Dark(k, r, id) ==
               (if k.IsVideoSender(id, m.id) then [OnCh(id, VideoCallEnd(id, m.id, m.callsign))] else [])
            && r.Subs(id) == k.Subs(id) - {c}
  {
  }

  lemma LeaveLog(mail: Mail, k: Core, c: Client)
    requires c in k.members && k.members[c].channelID in k.channels
    ensures var m, id := k.members[c], k.members[c].channelID;
            HubMail.Leave(mail, k, c).log ==
              mail.log + ([OnCh(id, UserList(id, |k.Subs(id) - {c}|))]
                          + (if k.channels[id].floor.speaker == c then Stops(id, m.id, m.callsign) else [])
                          + (if k.IsVideoSender(id, m.id) then [OnCh(id, VideoCallEnd(id, m.id, m.callsign))] else []))
  {
    var m := k.members[c];
    var id := m.channelID;
    var targets := k.Subs(id) - {c};
    IdleLog(mail.BroadcastUserList(targets, id), targets, k.members.Keys, id, m.id, m.callsign);
  }

  lemma UnregisterLog(mail: Mail, k: Core, c: Client)
    requires c in k.members && k.members[c].channelID in k.channels
    ensures var m, id := k.members[c], k.members[c].channelID;
            HubMail.Unregister(mail, k, c).log ==
              mail.log + ([OnCh(id, UserList(id, |k.Subs(id) - {c}|))]
                          + (if k.IsVideoSender(id, m.id) then [OnCh(id, VideoCallEnd(id, m.id, m.callsign))] else [])
                          + (if k.channels[id].floor.speaker == c then Stops(id, m.id, m.callsign) else []))
  {
    var m := k.members[c];
    var id := m.channelID;
    var targets := k.Subs(id) - {c};
    var m1 := mail.(boxes := mail.boxes - {c}).BroadcastUserList(targets, id);
    var m2 := if k.IsVideoSender(id, m.id) then m1.AnnounceVideoEnd(targets, id, m) else m1;
    IdleLog(m2, targets, k.members.Keys - {c}, id, m.id, m.callsign);
  }

  lemma DisconnectIsNews(mail: Mail, k: Core, c: Client)
    requires Placed(k) && c in k.members
    ensures HubMail.Unregister(mail, k, c).log == mail.log + Left(k, Unregister(k, c), k.members[c].channelID)
  {
    UnregisterLog(mail, k, c);
    DepartureTold(k, Unregister(k, c), c);
  }

  lemma ArrivalLog(mail: Mail, k: Core, c: Client, id: int)
    requires c in k.members && id in k.channels
    ensures HubMail.Arrive(mail, k, c, id).log == mail.log + Members(Arrive(k, c, id), id)
  {
    assert Arrive(k, c, id).Subs(id) == k.Subs(id) + {c};
  }

  lemma SwitchIsDeparture(k: Core, c: Client, id: int, password: string)
    requires Placed(k) && c in k.members && JudgeSwitch(k, c, id, password).Enter?
    ensures Departed(k, SwitchChannel(k, c, id, password), c, k.members[c].channelID)
    ensures SwitchChannel(k, c, id, password).members[c].channelID == id != k.members[c].channelID
  {
  }

  lemma LeaveIsNews(mail: Mail, k: Core, r: Core, c: Client)
    requires Placed(k) && c in k.members && Departed(k, r, c, k.members[c].channelID)
    ensures HubMail.Leave(mail, k, c).log == mail.log + Parted(k, r, k.members[c].channelID)
  {
    LeaveLog(mail, k, c);
    DepartureTold(k, r, c);
  }

  lemma SwitchIsNews(mail: Mail, k: Core, c: Client, id: int, password: string)
    requires Placed(k) && c in k.members
    ensures HubMail.SwitchChannel(mail, k, c, id, password).log ==
            mail.log + Relocated(k, SwitchChannel(k, c, id, password), c)
  {
    if JudgeSwitch(k, c, id, password).Enter? {
      var r, from := SwitchChannel(k, c, id, password), k.members[c].channelID;
      SwitchIsDeparture(k, c, id, password);
      LeaveIsNews(mail, k, r, c);
      ArrivalLog(HubMail.Leave(mail, k, c), Leave(k, c), c, id);
      Regroup(mail.log, Parted(k, r, from), Members(r, id));
    }
  }

  lemma ConnectIsNews(mail: Mail, k: Core, c: Client, m: Member, pick: int)
    requires Placed(k) && c !in k.members && pick in k.channels
    ensures HubMail.Register(mail, k, c, m, Mailbox([], [], false), pick).log ==
            mail.log + Members(Register(k, c, m, pick), Register(k, c, m, pick).members[c].channelID)
  {
    var home := Home(k, m, pick);
    assert Register(k, c, m, pick).Subs(home) == k.Subs(home) + {c};
  }

  /** What a move leaves behind depends on the old channel only. */
  lemma RelocationAgrees(k: Core, k1: Core, r: Core, c: Client)
    requires c in k.members && c in r.members && k.members[c].channelID in k.channels
    requires k1 == k.(channels := k1.channels) && k.members[c].channelID in k1.channels
    requires k1.channels[k.members[c].channelID] == k.channels[k.members[c].channelID]
    ensures Relocated(k1, r, c) == Relocated(k, r, c)
  {
  }

  lemma CreateLog(mail: Mail, k: Core, c: Client, name: string, isPrivate: bool, password: string, r: Core)
    requires Placed(k) && c in k.members && name != "" && r == CreateChannel(k, c, name, isPrivate, password)
    ensures c in r.members
    ensures var k1 := AddChannel(k, name, isPrivate, password);
            HubMail.CreateChannel(mail, k, c, name, isPrivate, password).log ==
              mail.log + [Sent(Everyone, ChannelList(GetChannelList(k1)))] + Relocated(k1, r, c)
  {
    var k1 := AddChannel(k, name, isPrivate, password);
    AddChannelKeepsPlacement(k, name, isPrivate, password);
    SwitchIsNews(mail.BroadcastAll(k.members.Keys, ChannelList(GetChannelList(k1))), k1, c, NewChannelID(k), password);
  }

  lemma CreateIsNews(mail: Mail, k: Core, c: Client, name: string, isPrivate: bool, password: string, r: Core)
    requires Placed(k) && c in k.members && r == CreateChannel(k, c, name, isPrivate, password)
    ensures c in r.members
    ensures HubMail.CreateChannel(mail, k, c, name, isPrivate, password).log ==
            mail.log + Created(k, r, c, name, isPrivate, password)
  {
    if name != "" {
      var k1 := AddChannel(k, name, isPrivate, password);
      CreateLog(mail, k, c, name, isPrivate, password, r);
      RelocationAgrees(k, k1, r, c);
      Regroup(mail.log, [Sent(Everyone, ChannelList(GetChannelList(k1)))], Relocated(k, r, c));
    }
  }

  // ---- Every step ----

  lemma QuietStepsAreNews(mail: Mail, k: Core, e: Event, r: Core)
    requires Placed(k) && Enabled(k, e) && r == Next(k, e) && (e.SetIdentity? || e.FireTimer? || e.GatewayPacket?)
    ensures HubSystem.NextMail(mail, k, e).log == mail.log + News(k, e, r)
  {
  }

  lemma VideoIsNews(mail: Mail, k: Core, e: Event, r: Core)
    requires Placed(k) && Enabled(k, e) && r == Next(k, e) && (e.VideoOn? || e.VideoOff?)
    ensures HubSystem.NextMail(mail, k, e).log == mail.log + News(k, e, r)
  {
  }

  lemma PacketIsNews(mail: Mail, k: Core, e: Event, r: Core)
    requires Placed(k) && Enabled(k, e) && r == Next(k, e) && e.Packet?
    ensures HubSystem.NextMail(mail, k, e).log == mail.log + News(k, e, r)
  {
  }

  lemma SayIsNews(mail: Mail, k: Core, e: Event, r: Core)
    requires Placed(k) && Enabled(k, e) && r == Next(k, e) && e.Say?
    ensures HubSystem.NextMail(mail, k, e).log == mail.log + News(k, e, r)
  {
  }

  lemma FloorIsNews(mail: Mail, k: Core, e: Event, r: Core)
    requires Placed(k) && Enabled(k, e) && r == Next(k, e) && (e.Press? || e.LetGo? || e.Expire?)
    ensures HubSystem.NextMail(mail, k, e).log == mail.log + News(k, e, r)
  {
    if e.Press? {
      PressIsNews(mail, k, e.client, e.now, e.writeOk);
    } else if e.LetGo? {
      LetGoIsNews(mail, k, e.client, e.now, e.writeOk);
    } else {
      ExpireIsNews(mail, k, e.channelID, e.timer, e.now, e.writeOk);
    }
  }

  lemma ComingOrGoingIsNews(mail: Mail, k: Core, e: Event, r: Core)
    requires Placed(k) && Enabled(k, e) && r == Next(k, e) && (e.Connect? || e.Disconnect?)
    ensures e.Connect? ==> e.client in r.members
    ensures HubSystem.NextMail(mail, k, e).log == mail.log + News(k, e, r)
  {
    if e.Connect? {
      ConnectIsNews(mail, k, e.client, e.profile, e.pick);
    } else {
      DisconnectIsNews(mail, k, e.client);
    }
  }

  lemma SwitchingIsNews(mail: Mail, k: Core, e: Event, r: Core)
    requires Placed(k) && Enabled(k, e) && r == Next(k, e) && (e.Join? || e.Create?)
    ensures e.client in r.members
    ensures HubSystem.NextMail(mail, k, e).log == mail.log + News(k, e, r)
  {
    if e.Join? {
      SwitchIsNews(mail, k, e.client, e.channelID, e.password);
    } else {
      CreateIsNews(mail, k, e.client, e.name, e.isPrivate, e.password, r);
    }
  }

  /** Every step logs exactly its news: what changed between the states before and after it. */
  lemma EveryStepIsNews(mail: Mail, k: Core, e: Event, r: Core)
    requires Placed(k) && Enabled(k, e) && r == Next(k, e)
    ensures e.Connect? || e.Join? || e.Create? ==> e.client in r.members
    ensures HubSystem.NextMail(mail, k, e).log == mail.log + News(k, e, r)
  {
    if e.Connect? || e.Disconnect? {
      ComingOrGoingIsNews(mail, k, e, r);
    } else if e.Join? || e.Create? {
      SwitchingIsNews(mail, k, e, r);
    } else if e.Press? || e.LetGo? || e.Expire? {
      FloorIsNews(mail, k, e, r);
    } else if e.Packet? {
      PacketIsNews(mail, k, e, r);
    } else if e.Say? {
      SayIsNews(mail, k, e, r);
    } else if e.VideoOn? || e.VideoOff? {
      VideoIsNews(mail, k, e, r);
    } else {
      QuietStepsAreNews(mail, k, e, r);
    }
  }
}
