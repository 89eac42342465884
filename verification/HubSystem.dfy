/** Core and mail together: the log an observer reads is exactly the view of HubObserver, in every run. */
module HubSystem {
  import opened Bytes
  import Messages
  import opened Clients
  import opened HubLog
  import Recorder
  import opened HubCore
  import opened HubRuns
  import opened HubObserver
  import HubMail

  type Mail = HubMail.Mail

  function NextMail(mail: Mail, k: Core, e: Event): Mail
    requires Enabled(k, e)
  {
    match e
    case Connect(c, m, pick) => HubMail.Register(mail, k, c, m, Mailbox([], [], false), pick)
    case Disconnect(c) => HubMail.Unregister(mail, k, c)
    case SetIdentity(c, callsign, role) => HubMail.Identify(mail, k, c, callsign, role)
    case Join(c, id, password) => HubMail.SwitchChannel(mail, k, c, id, password)
    case Create(c, name, isPrivate, password) => HubMail.CreateChannel(mail, k, c, name, isPrivate, password)
    case Press(c, now, ok) => HubMail.PTTDown(mail, k, c, now, ok)
    case LetGo(c, now, ok) => HubMail.PTTUp(mail, k, c, now, ok)
    case FireTimer(_, _) => mail
    case Expire(id, _, now, ok) => HubMail.TimeOut(mail, k, id, now, ok)
    case Packet(c, data) => HubMail.BinaryAudio(mail, k, c, data)
    case GatewayPacket(id, data) => HubMail.RoIPAudio(mail, k, id, data)
    case Say(c, text, fileURL) => HubMail.PostChat(mail, k, c, text, fileURL)
    case VideoOn(c, isScreen) => HubMail.StartVideo(mail, k, c, isScreen)
    case VideoOff(c) => HubMail.StopVideo(mail, k, c)
  }

  lemma ComingAndGoingBoxes(mail: Mail, k: Core, e: Event)
    requires Enabled(k, e) && mail.boxes.Keys == k.members.Keys && (e.Connect? || e.Disconnect?)
    ensures NextMail(mail, k, e).boxes.Keys == Next(k, e).members.Keys
  {
  }

  lemma SwitchingBoxes(mail: Mail, k: Core, e: Event)
    requires Enabled(k, e) && mail.boxes.Keys == k.members.Keys && (e.Join? || e.Create?)
    ensures NextMail(mail, k, e).boxes.Keys == Next(k, e).members.Keys
  {
  }

  lemma SignalBoxes(mail: Mail, k: Core, e: Event)
    requires Enabled(k, e) && mail.boxes.Keys == k.members.Keys && !IsMove(e)
    ensures NextMail(mail, k, e).boxes.Keys == Next(k, e).members.Keys
  {
  }

  /** Exactly the registered clients have queues. */
  lemma BoxesFollowMembers(mail: Mail, k: Core, e: Event)
    requires Enabled(k, e) && mail.boxes.Keys == k.members.Keys
    ensures NextMail(mail, k, e).boxes.Keys == Next(k, e).members.Keys
  {
    if e.Connect? || e.Disconnect? {
      ComingAndGoingBoxes(mail, k, e);
    } else if IsMove(e) {
      SwitchingBoxes(mail, k, e);
    } else {
      SignalBoxes(mail, k, e);
    }
  }

  lemma LeaveIsSeen(mail: Mail, k: Core, c: Client)
    requires c in k.members
    ensures Replay(HubMail.Leave(mail, k, c).log) == SeenLeave(Replay(mail.log), k, c)
    ensures Replay(HubMail.Unregister(mail, k, c).log) == SeenLeave(Replay(mail.log), k, c)
  {
  }

  lemma SwitchIsSeen(mail: Mail, k: Core, c: Client, id: int, password: string)
    requires c in k.members
    ensures Replay(HubMail.SwitchChannel(mail, k, c, id, password).log) ==
            SeenSwitch(Replay(mail.log), k, c, id, password)
  {
  }

  lemma CreateIsSeen(mail: Mail, k: Core, c: Client, name: string, isPrivate: bool, password: string)
    requires c in k.members
    ensures Replay(HubMail.CreateChannel(mail, k, c, name, isPrivate, password).log) ==
            SeenCreate(Replay(mail.log), k, c, name, isPrivate, password)
  {
    if name != "" {
      var k1 := AddChannel(k, name, isPrivate, password);
      var m1 := mail.BroadcastAll(k.members.Keys, Messages.ChannelList(GetChannelList(k1)));
      SwitchIsSeen(m1, k1, c, NewChannelID(k), password);
    }
  }

  lemma PressIsSeen(mail: Mail, k: Core, c: Client, now: nat, writeOk: bool)
    requires c in k.members
    ensures Replay(HubMail.PTTDown(mail, k, c, now, writeOk).log) == SeenPress(Replay(mail.log), k, c, now, writeOk)
  {
  }

  lemma LetGoIsSeen(mail: Mail, k: Core, c: Client, now: nat, writeOk: bool)
    requires c in k.members
    ensures Replay(HubMail.PTTUp(mail, k, c, now, writeOk).log) == SeenLetGo(Replay(mail.log), k, c, now, writeOk)
  {
  }

  lemma ExpireIsSeen(mail: Mail, k: Core, id: int, now: nat, writeOk: bool)
    requires id in k.channels
    ensures Replay(HubMail.TimeOut(mail, k, id, now, writeOk).log) == SeenExpire(Replay(mail.log), k, id, now, writeOk)
  {
  }

  lemma PacketIsSeen(mail: Mail, k: Core, c: Client, data: seq<byte>)
    requires c in k.members
    ensures Replay(HubMail.BinaryAudio(mail, k, c, data).log) == SeenPacket(Replay(mail.log), k, c, data)
  {
  }

  lemma SayIsSeen(mail: Mail, k: Core, c: Client, text: string, fileURL: string)
    requires c in k.members
    ensures Replay(HubMail.PostChat(mail, k, c, text, fileURL).log) == SeenSay(Replay(mail.log), k, c, text, fileURL)
  {
  }

  lemma OthersAreNotSeen(mail: Mail, k: Core, e: Event)
    requires Enabled(k, e)
    requires e.Connect? || e.SetIdentity? || e.FireTimer? || e.GatewayPacket? || e.VideoOn? || e.VideoOff?
    ensures Replay(NextMail(mail, k, e).log) == Replay(mail.log)
  {
  }

  lemma EveryStepIsSeen(mail: Mail, k: Core, e: Event)
    requires Enabled(k, e)
    ensures Replay(NextMail(mail, k, e).log) == SeenAfter(Replay(mail.log), k, e)
  {
    match e
    case Disconnect(c) => LeaveIsSeen(mail, k, c);
    case Join(c, id, password) => SwitchIsSeen(mail, k, c, id, password);
    case Create(c, name, isPrivate, password) => CreateIsSeen(mail, k, c, name, isPrivate, password);
    case Press(c, now, ok) => PressIsSeen(mail, k, c, now, ok);
    case LetGo(c, now, ok) => LetGoIsSeen(mail, k, c, now, ok);
    case Expire(id, _, now, ok) => ExpireIsSeen(mail, k, id, now, ok);
    case Packet(c, data) => PacketIsSeen(mail, k, c, data);
    case Say(c, text, fileURL) => SayIsSeen(mail, k, c, text, fileURL);
    case _ => OthersAreNotSeen(mail, k, e);
  }

  // ---- Runs ----

  /**
   Between the hub's steps the pumps take frames from the front of the queues, and a failing pump closes its client.
   */
  ghost predicate Drained(a: Mail, b: Mail) {
    && b.log == a.log && b.boxes.Keys == a.boxes.Keys
    && forall c <- a.boxes ::
         && (a.boxes[c].isClosed ==> b.boxes[c].isClosed)
         && (exists n :: 0 <= n <= |a.boxes[c].send| && b.boxes[c].send == a.boxes[c].send[n..])
         && (exists n :: 0 <= n <= |a.boxes[c].highPri| && b.boxes[c].highPri == a.boxes[c].highPri[n..])
  }

  ghost predicate IsSystemRun(cores: seq<Core>, mails: seq<Mail>, events: seq<Event>) {
    && IsRun(cores, events) && cores[0].channels != map[]
    && |mails| == |cores| && mails[0] == HubMail.Mail(map[], [])
    && forall i {:trigger events[i]} :: 0 <= i < |events| ==>
       Drained(NextMail(mails[i], cores[i], events[i]), mails[i + 1])
  }

  /** In every run exactly the registered clients have queues. */
  lemma {:induction false} RunKeepsBoxes(cores: seq<Core>, mails: seq<Mail>, events: seq<Event>, i: nat)
    requires IsSystemRun(cores, mails, events) && i < |cores|
    ensures mails[i].boxes.Keys == cores[i].members.Keys
  {
    if i > 0 {
      RunKeepsBoxes(cores, mails, events, i - 1);
      BoxesFollowMembers(mails[i - 1], cores[i - 1], events[i - 1]);
    }
  }

  lemma StepKeepsPicture(k: Core, seen: Seen, e: Event)
    requires Placed(k) && Consistent(k, seen) && Enabled(k, e)
    ensures Consistent(Next(k, e), SeenAfter(seen, k, e))
  {
    if e.Press? || e.LetGo? {
      ButtonKeepsPicture(k, seen, e);
    } else if e.FireTimer? || e.Expire? {
      TimerKeepsPicture(k, seen, e);
    } else if e.Connect? || e.Disconnect? {
      ComingOrGoingKeepsPicture(k, seen, e);
    } else if e.Join? || e.Create? {
      SwitchingKeepsPicture(k, seen, e);
    } else {
      OtherEventKeepsPicture(k, seen, e);
    }
  }

  lemma ButtonKeepsPicture(k: Core, seen: Seen, e: Event)
    requires Placed(k) && Consistent(k, seen) && Enabled(k, e) && (e.Press? || e.LetGo?)
    ensures Consistent(Next(k, e), SeenAfter(seen, k, e))
  {
    match e
    case Press(c, now, ok) => PressKeepsPicture(k, seen, c, now, ok);
    case LetGo(c, now, ok) => LetGoKeepsPicture(k, seen, c, now, ok);
  }

  lemma TimerKeepsPicture(k: Core, seen: Seen, e: Event)
    requires Placed(k) && Consistent(k, seen) && Enabled(k, e) && (e.FireTimer? || e.Expire?)
    ensures Consistent(Next(k, e), SeenAfter(seen, k, e))
  {
    match e
    case FireTimer(id, t) => FireKeepsPicture(k, seen, id, t);
    case Expire(id, t, now, ok) => ExpireKeepsPicture(k, seen, id, t, now, ok);
  }

  lemma ComingOrGoingKeepsPicture(k: Core, seen: Seen, e: Event)
    requires Placed(k) && Consistent(k, seen) && Enabled(k, e) && (e.Connect? || e.Disconnect?)
    ensures Consistent(Next(k, e), SeenAfter(seen, k, e))
  {
    match e
    case Connect(c, m, pick) => RegisterKeepsPicture(k, seen, c, m, pick);
    case Disconnect(c) => DisconnectKeepsPicture(k, seen, c);
  }

  lemma SwitchingKeepsPicture(k: Core, seen: Seen, e: Event)
    requires Placed(k) && Consistent(k, seen) && Enabled(k, e) && (e.Join? || e.Create?)
    ensures Consistent(Next(k, e), SeenAfter(seen, k, e))
  {
    match e
    case Join(c, id, password) => SwitchKeepsPicture(k, seen, c, id, password);
    case Create(c, name, isPrivate, password) => CreateKeepsPicture(k, seen, c, name, isPrivate, password);
  }

  lemma OtherEventKeepsPicture(k: Core, seen: Seen, e: Event)
    requires Placed(k) && Consistent(k, seen) && Enabled(k, e) && !IsFloorEvent(e) && !IsMove(e)
    ensures Consistent(Next(k, e), SeenAfter(seen, k, e))
  {
    match e
    case SetIdentity(c, callsign, role) => IdentifyKeepsPicture(k, seen, c, callsign, role);
    case Packet(c, data) => PacketKeepsPicture(k, seen, c, data);
    case GatewayPacket(_, _) =>
    case Say(c, text, fileURL) => SayKeepsPicture(k, seen, c, text, fileURL);
    case VideoOn(_, _) => VideoKeepsPicture(k, seen, Next(k, e));
    case VideoOff(_) => VideoKeepsPicture(k, seen, Next(k, e));
  }

  lemma NewHubPicture(k: Core)
    requires IsNewHub(k)
    ensures Consistent(k, NOTHING)
  {
  }

  /**
   In every run and after every step, the log alone tells the hub's state: folding the channel_activity broadcasts from
   idle gives each channel's busy flag, the latest user_talking names the speaker of a busy channel, every user_stopped
   named the latest talker, a busy channel's recording buffer is its speaker's and holds the payloads accepted since
   that speaker's latest grant, and the bounded histories end the unbounded ones.
   */
  lemma {:induction false} LogTellsTheHub(cores: seq<Core>, mails: seq<Mail>, events: seq<Event>, i: nat)
    requires IsSystemRun(cores, mails, events) && i < |cores|
    ensures Consistent(cores[i], Replay(mails[i].log))
  {
    if i == 0 {
      NewHubPicture(cores[0]);
    } else {
      LogTellsTheHub(cores, mails, events, i - 1);
      RunKeepsPlacement(cores, events, i - 1);
      StepKeepsPicture(cores[i - 1], Replay(mails[i - 1].log), events[i - 1]);
      EveryStepIsSeen(mails[i - 1], cores[i - 1], events[i - 1]);
    }
  }

  /** Every user_stopped of a run names the user of the latest user_talking on its channel. */
  lemma StopsNameLatestTalker(cores: seq<Core>, mails: seq<Mail>, events: seq<Event>, i: nat, j: nat)
    requires IsSystemRun(cores, mails, events) && i < |cores| && j < |mails[i].log|
    ensures StopNamesTalker(mails[i].log, j)
  {
    LogTellsTheHub(cores, mails, events, i);
    StopsMatchMeans(mails[i].log);
  }

  /** The channel whose floor an event is about, and its clock reading. */
  function FloorChannel(k: Core, e: Event): int {
    match e
    case Expire(id, _, _, _) => id
    case Press(c, _, _) => if c in k.members then k.members[c].channelID else 0
    case LetGo(c, _, _) => if c in k.members then k.members[c].channelID else 0
    case _ => 0
  }

  function ClockOf(e: Event): nat {
    if e.Press? || e.LetGo? || e.Expire? then e.now else 0
  }

  /**
   Channel `id` is busy, the buffer that ends is its speaker's, and the one recording announced is made of the payloads
   heard since that speaker's latest grant: all of them exactly when they fit under the cap.
   */
  ghost predicate AnnouncesSpeakersAudio(k: Core, seen: Seen, after: Seen, id: int, now: nat) {
    && id in k.channels && k.channels[id].floor.isBusy
    && k.recorder.enabled && id in k.recorder.activeTX && id in seen.talker
    && var tx, heard := k.recorder.activeTX[id], Lookup(seen.heard, id);
    && tx.speakerID == k.IdOf(k.channels[id].floor.speaker) && tx.speakerID == seen.talker[id]
    && tx.pcm == Recorder.KeepAll(heard) && 3200 <= |tx.pcm| <= 1_920_000
    && (tx.pcm == Concat(heard) <==> |Concat(heard)| <= 1_920_000)
    && after.recorded == seen.recorded + [k.recorder.Recording(id, now)] && after.takes == seen.takes + [heard]
    && k.recorder.Recording(id, now).sizeBytes == 44 + |tx.pcm|
  }

  /** Of what was announced and recorded, the view changes as the end of the recording on channel `id` tells. */
  ghost predicate SeesRecordingEnd(k: Core, seen: Seen, after: Seen, id: int, now: nat, writeOk: bool) {
    var ended := seen.Recorded(k.recorder.Ended(id, now, writeOk).1);
    after.recorded == ended.recorded && after.takes == ended.takes
  }

  lemma EndAnnouncesSpeakersAudio(k: Core, seen: Seen, after: Seen, id: int, now: nat, writeOk: bool)
    requires Placed(k) && Consistent(k, seen) && id in k.channels && k.channels[id].floor.isBusy
    requires SeesRecordingEnd(k, seen, after, id, now, writeOk) && after.recorded != seen.recorded
    ensures AnnouncesSpeakersAudio(k, seen, after, id, now)
  {
    Recorder.KeepsEverythingIffItFits(Lookup(seen.heard, id));
  }

  lemma OnlyEndingsAnnounce(k: Core, seen: Seen, e: Event)
    requires Placed(k) && Enabled(k, e) && SeenAfter(seen, k, e).recorded != seen.recorded
    ensures e.Press? || e.LetGo? || e.Expire?
    ensures var id := FloorChannel(k, e);
            && id in k.channels && k.channels[id].floor.isBusy
            && SeesRecordingEnd(k, seen, SeenAfter(seen, k, e), id, ClockOf(e), e.writeOk)
  {
  }

  /** Only a press, a release or an expiry announces a recording, and it announces its speaker's audio. */
  lemma StepAnnouncesSpeakersAudio(k: Core, seen: Seen, e: Event)
    requires Placed(k) && Consistent(k, seen) && Enabled(k, e) && SeenAfter(seen, k, e).recorded != seen.recorded
    ensures AnnouncesSpeakersAudio(k, seen, SeenAfter(seen, k, e), FloorChannel(k, e), ClockOf(e))
  {
    OnlyEndingsAnnounce(k, seen, e);
    EndAnnouncesSpeakersAudio(k, seen, SeenAfter(seen, k, e), FloorChannel(k, e), ClockOf(e), e.writeOk);
  }

  /**
   Recording fidelity, in every run: whenever a step announces a recording, its channel was busy and the recording is
   the audio accepted from the speaker since its latest grant, packets past the cap skipped. A buffer left behind by a
   disconnect or a channel switch is never announced.
   */
  lemma RecordingsAreFaithful(cores: seq<Core>, mails: seq<Mail>, events: seq<Event>, i: nat)
    requires IsSystemRun(cores, mails, events) && i < |events|
    requires Replay(mails[i + 1].log).recorded != Replay(mails[i].log).recorded
    ensures AnnouncesSpeakersAudio(cores[i], Replay(mails[i].log), Replay(mails[i + 1].log),
              FloorChannel(cores[i], events[i]), ClockOf(events[i]))
  {
    LogTellsTheHub(cores, mails, events, i);
    RunKeepsPlacement(cores, events, i);
    EveryStepIsSeen(mails[i], cores[i], events[i]);
    StepAnnouncesSpeakersAudio(cores[i], Replay(mails[i].log), events[i]);
  }
}
