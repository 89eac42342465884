/**
 The Hub object of internal/radio/hub.go. Its handlers update the maps step by step and queue what they send in the
 order of the source; each is proved to compute the step of HubCore and HubMail, so the object keeps every invariant
 proved about runs.
 */
module Hub {
  import opened Wrappers
  import opened Bytes
  import opened Messages
  import opened Clients
  import opened Floor
  import opened HubLog
  import opened Recorder
  import opened HubCore
  import HubMail
  import HubRuns
  import HubObserver
  import HubSystem
  import Protocol
  import Roles

  class Hub {
    const totDuration: int
    var channels: map<int, ChannelState>
    var clients: map<Client, Member>
    var clientsByID: map<string, Client>
    var chatHistory: map<int, seq<ChatMessage>>
    var activeVideoByChannel: map<int, Video>
    const recorder: AudioRecorder
    var mailboxes: map<Client, Mailbox>
    ghost var log: seq<Entry>

    function State(): Core
      reads this`channels, this`clients, this`clientsByID, this`chatHistory, this`activeVideoByChannel, recorder
    {
      Core(channels, clients, clientsByID, chatHistory, activeVideoByChannel, recorder.State(), totDuration)
    }

    ghost function Post(): HubMail.Mail
      reads this`mailboxes, this`log
    {
      HubMail.Mail(mailboxes, log)
    }

    /** What every handler keeps: placement, and a log from which an observer can tell the hub's state. */
    ghost predicate Valid()
      reads this, recorder
    {
      && HubRuns.Placed(State())
      && HubObserver.Consistent(State(), Replay(log))
      && mailboxes.Keys == clients.Keys
    }

    constructor (defs: seq<ChannelDef>, totDuration: int, maxRecordings: Option<int>, disabled: bool)
      ensures HubRuns.IsNewHub(State()) && Post() == HubMail.Mail(map[], []) && fresh(recorder)
      ensures channels.Keys == set i | 0 <= i < |defs| :: defs[i].id
      ensures defs != [] ==> Valid()
    {
      this.totDuration := totDuration;
      channels, clients, clientsByID, chatHistory, activeVideoByChannel := map[], map[], map[], map[], map[];
      recorder := new AudioRecorder(maxRecordings, disabled);
      mailboxes, log := map[], [];
      new;
      for i := 0 to |defs|
        invariant clients == map[] && clientsByID == map[] && chatHistory == map[] && activeVideoByChannel == map[]
        invariant recorder.activeTX == map[] && recorder.recordings == [] && recorder.files == map[]
        invariant recorder.maxHistory > 0
        invariant mailboxes == map[] && log == []
        invariant channels.Keys == set j | 0 <= j < i :: defs[j].id
        invariant forall id <- channels ::
          channels[id].definition.id == id && channels[id].floor == NewFloor(totDuration)
      {
        channels := channels[defs[i].id := ChannelState(defs[i], NewFloor(totDuration))];
      }
      if defs != [] {
        assert defs[0].id in channels.Keys;
        HubRuns.NewHubIsPlaced(State());
        HubSystem.NewHubPicture(State());
      }
    }

    // ---- Sending ----

    method EnqueueTo(targets: set<Client>, f: Frame)
      modifies this`mailboxes
      ensures mailboxes == HubMail.Delivered(old(mailboxes), targets, f)
    {
      var rest := targets;
      while rest != {}
        invariant rest <= targets
        invariant mailboxes == HubMail.Delivered(old(mailboxes), targets - rest, f)
      {
        var c := Pick(rest);
        rest := rest - {c};
        if c in mailboxes {
          mailboxes := mailboxes[c := mailboxes[c].Enqueue(f)];
        }
      }
    }

    method BroadcastSignal(id: int, msg: Message)
      requires id in channels
      modifies this`mailboxes, this`log
      ensures Post() == old(Post()).Broadcast(State().Subs(id), id, msg)
    {
      EnqueueTo(channels[id].floor.subscribers, Json(msg));
      log := Logged(log, Sent(OnChannel(id), msg));
    }

    method BroadcastAll(msg: Message)
      modifies this`mailboxes, this`log
      ensures Post() == old(Post()).BroadcastAll(clients.Keys, msg)
    {
      EnqueueTo(clients.Keys, Json(msg));
      log := Logged(log, Sent(Everyone, msg));
    }

    method SendJSON(client: Client, msg: Message)
      modifies this`mailboxes
      ensures Post() == old(Post()).SendJSON(client, msg)
    {
      EnqueueTo({client}, Json(msg));
    }

    method SendPriorityJSON(client: Client, msg: Message)
      modifies this`mailboxes
      ensures Post() == old(Post()).SendPriority(client, msg)
    {
      if client in mailboxes {
        mailboxes := mailboxes[client := mailboxes[client].EnqueuePriority(Json(msg))];
      }
    }

    method BroadcastUserList(id: int)
      requires id in channels
      modifies this`mailboxes, this`log
      ensures Post() == old(Post()).BroadcastUserList(State().Subs(id), id)
    {
      BroadcastSignal(id, UserList(id, |channels[id].floor.subscribers|));
    }

    /** The three announcements after every release of the floor. */
    method AnnounceIdle(id: int, userID: string, callsign: string)
      requires id in channels
      modifies this`mailboxes, this`log
      ensures Post() == old(Post()).AnnounceIdle(State().Subs(id), clients.Keys, id, userID, callsign)
    {
      BroadcastSignal(id, FloorStatusChange(id, Idle, "", "", ""));
      BroadcastSignal(id, UserStopped(id, userID, callsign));
      BroadcastAll(ChannelActivity(id, false));
    }

    method SendHistory(client: Client, id: int, always: bool)
      modifies this`mailboxes
      ensures Post() == old(Post()).SendHistory(State(), client, id, always)
    {
      var hist := Lookup(chatHistory, id);
      if always || |hist| > 0 {
        SendJSON(client, ChatHistory(id, hist));
      }
      if id in activeVideoByChannel {
        SendJSON(client, VideoCallStart(activeVideoByChannel[id]));
      }
    }

    method ChannelSnapshot() returns (list: seq<ChannelInfo>)
      ensures list == GetChannelList(State())
    {
      list := [];
      for id := 1 to |channels| + 1
        invariant list == ChannelInfos(State(), id - 1)
      {
        if id in channels {
          list := list + [InfoOf(State(), id)];
        }
      }
    }

    // ---- Shared steps ----

    method SetFloor(id: int, f: FloorState)
      requires id in channels
      modifies this`channels
      ensures State() == old(State()).WithFloor(id, f)
    {
      channels := channels[id := channels[id].(floor := f)];
    }

    method AnnounceTalking(id: int, client: Client, m: Member)
      requires id in channels
      modifies this`mailboxes, this`log
      ensures Post() == old(Post()).AnnounceTalking(State().Subs(id), clients.Keys, id, client, m)
    {
      SendPriorityJSON(client, FloorStatusChange(id, Granted, "", m.callsign, m.id));
      BroadcastSignal(id, UserTalking(id, m.id, m.callsign));
      BroadcastAll(ChannelActivity(id, true));
    }

    /** Ends the channel's recording and announces what it produced. */
    method FinishRecording(id: int, now: nat, writeOk: bool) returns (rec: Option<VoiceRecording>)
      requires id in channels
      modifies recorder, this`mailboxes, this`log
      ensures State() == old(State()).WithRecordingEnded(id, now, writeOk)
      ensures rec == old(recorder.State()).Ended(id, now, writeOk).1
      ensures Post() == old(Post()).AnnounceRecording(State().Subs(id), id, rec)
    {
      rec := recorder.OnTransmissionEnd(id, now, writeOk);
      if rec.Some? {
        BroadcastSignal(id, TransmissionRecorded(rec.value));
      }
    }

    method EndPreempted(id: int, loser: Client, winner: Member, now: nat, writeOk: bool)
      requires id in channels
      modifies recorder, this`mailboxes, this`log
      ensures State() == old(State()).WithRecordingEnded(id, now, writeOk)
      ensures Post() == HubMail.AnnouncePreemption(old(Post()), old(State()), id, loser, winner, now, writeOk)
    {
      var rec := FinishRecording(id, now, writeOk);
      SendPriorityJSON(loser, FloorStatusChange(id, Denied, "preempted_by_dispatcher", winner.callsign, winner.id));
    }

    method AppendChat(id: int, entry: ChatMessage)
      modifies this`chatHistory, this`log
      ensures State() == old(State()).WithChat(id, entry)
      ensures Post() == old(Post()).Note(Wrote(id, entry))
    {
      var hist := Lookup(chatHistory, id);
      hist := hist + [entry];
      if |hist| > 30 {
        hist := hist[|hist| - 30..];
      }
      chatHistory := chatHistory[id := hist];
      log := Logged(log, Wrote(id, entry));
    }

    /** Video presence ends with its sender's departure. */
    method EndVideoOf(id: int, m: Member)
      requires id in channels
      modifies this`activeVideoByChannel, this`mailboxes, this`log
      ensures State() == old(State()).WithoutVideoOf(id, m.id)
      ensures Post() == if old(State()).IsVideoSender(id, m.id)
              then old(Post()).AnnounceVideoEnd(State().Subs(id), id, m) else old(Post())
    {
      if id in activeVideoByChannel && activeVideoByChannel[id].senderID == m.id {
        activeVideoByChannel := activeVideoByChannel - {id};
        BroadcastSignal(id, VideoCallEnd(id, m.id, m.callsign));
      }
    }

    // ---- Handlers ----

    /** A new client joins its channel, or the first one a range over the map yields (`pick`). */
    method RegisterClient(client: Client, m: Member, pick: int)
      modifies this, recorder
      ensures State() == Register(old(State()), client, m, pick)
      ensures Post() == HubMail.Register(old(Post()), old(State()), client, m, Mailbox([], [], false), pick)
    {
      mailboxes := mailboxes[client := Mailbox([], [], false)];
      var home := m.channelID;
      if home !in channels && pick in channels {
        home := pick;
      }
      clients := clients[client := m.(channelID := home)];
      clientsByID := clientsByID[m.id := client];
      if home in channels {
        SetFloor(home, channels[home].floor.WithSubscriber(client));
        assert State().Subs(home) == old(State()).Subs(home) + {client};
        BroadcastUserList(home);
      }
      assert State() == Register(old(State()), client, m, pick);
      assert home == Home(old(State()), m, pick);
      SendJSON(client, ClientWelcome(m.id, m.callsign, home));
      var list := ChannelSnapshot();
      SendJSON(client, ChannelList(list));
      SendHistory(client, home, false);
    }

    method UnregisterClient(client: Client)
      requires client in clients
      modifies this, recorder
      ensures State() == Unregister(old(State()), client)
      ensures Post() == HubMail.Unregister(old(Post()), old(State()), client)
    {
      var m := clients[client];
      clients := clients - {client};
      mailboxes := mailboxes - {client};
      clientsByID := clientsByID - {m.id};
      var id := m.channelID;
      if id in channels {
        var (floor, released) := channels[id].floor.WithoutSubscriber(client);
        SetFloor(id, floor);
        BroadcastUserList(id);
        EndVideoOf(id, m);
        if released {
          AnnounceIdle(id, m.id, m.callsign);
        }
      }
    }

    method HandleIdentify(client: Client, callsign: string, role: string)
      requires client in clients
      modifies this, recorder
      ensures State() == Identify(old(State()), client, callsign, role)
      ensures Post() == HubMail.Identify(old(Post()), old(State()), client, callsign, role)
    {
      if callsign != "" {
        clients := clients[client := clients[client].(callsign := callsign)];
        if role != "" {
          clients := clients[client := clients[client].(role := role)];
        }
        if clients[client].channelID in channels {
          BroadcastUserList(clients[client].channelID);
        }
      }
    }

    method LeaveChannel(client: Client)
      requires client in clients
      modifies this, recorder
      ensures State() == Leave(old(State()), client)
      ensures Post() == HubMail.Leave(old(Post()), old(State()), client)
    {
      var m := clients[client];
      var id := m.channelID;
      if id in channels {
        var (floor, released) := channels[id].floor.WithoutSubscriber(client);
        SetFloor(id, floor);
        BroadcastUserList(id);
        if released {
          AnnounceIdle(id, m.id, m.callsign);
        }
        EndVideoOf(id, m);
      }
    }

    method EnterChannel(client: Client, id: int)
      requires client in clients && id in channels
      modifies this, recorder
      ensures State() == Arrive(old(State()), client, id)
      ensures Post() == HubMail.Arrive(old(Post()), old(State()), client, id)
    {
      clients := clients[client := clients[client].(channelID := id)];
      SetFloor(id, channels[id].floor.WithSubscriber(client));
      assert State().Subs(id) == old(State()).Subs(id) + {client};
      BroadcastUserList(id);
      var speaker := SpeakerOf(channels[id].floor);
      assert State().CallsignOf(speaker) == old(State()).CallsignOf(SpeakerOf(old(State()).channels[id].floor));
      var status := if speaker != null then Busy else Idle;
      SendJSON(client, FloorStatusChange(id, status, "", State().CallsignOf(speaker), ""));
      SameHistory(Post(), old(State()), State(), client, id);
      SendHistory(client, id, true);
    }

    method SwitchChannel(client: Client, newChannelID: int, password: string)
      requires client in clients
      modifies this, recorder
      ensures State() == HubCore.SwitchChannel(old(State()), client, newChannelID, password)
      ensures Post() == HubMail.SwitchChannel(old(Post()), old(State()), client, newChannelID, password)
    {
      if newChannelID !in channels {
        SendJSON(client, ErrorText("channel does not exist"));
        return;
      }
      if clients[client].channelID == newChannelID {
        return;
      }
      var def := channels[newChannelID].definition;
      if def.isPrivate && def.password != password {
        SendJSON(client, ErrorText("incorrect password for private channel"));
        return;
      }
      LeaveChannel(client);
      EnterChannel(client, newChannelID);
    }

    /** The search for a free number terminates on any finite map. */
    method FindFreeID() returns (newID: nat)
      ensures newID == NewChannelID(State())
    {
      newID := |channels| + 1;
      while newID in channels
        invariant FirstFree(channels.Keys, newID) == NewChannelID(State())
        decreases Above(channels.Keys, newID)
      {
        assert newID in Above(channels.Keys, newID) && newID !in Above(channels.Keys, newID + 1);
        newID := newID + 1;
      }
    }

    method HandleCreateChannel(client: Client, name: string, isPrivate: bool, password: string)
      requires client in clients
      modifies this, recorder
      ensures State() == CreateChannel(old(State()), client, name, isPrivate, password)
      ensures Post() == HubMail.CreateChannel(old(Post()), old(State()), client, name, isPrivate, password)
    {
      if name != "" {
        var newID := FindFreeID();
        var def := ChannelDef(newID, name, isPrivate, password);
        channels := channels[newID := ChannelState(def, NewFloor(totDuration))];
        var list := ChannelSnapshot();
        BroadcastAll(ChannelList(list));
        SwitchChannel(client, newID, password);
      }
    }

    /** The granted branch of handlePTTDown; `before` is the state the request was made in. */
    method StartTransmission(client: Client, preempted: Client?, now: nat, writeOk: bool, ghost before: Core)
      requires client in clients && before.members == clients && Grants(before, client, now)
      requires preempted == before.Requested(client, now).1.preempted
      requires State() == before.WithFloor(clients[client].channelID, before.Requested(client, now).0)
      requires State().Subs(clients[client].channelID) == before.Subs(clients[client].channelID)
      modifies recorder, this`mailboxes, this`log
      ensures State() == PTTDown(before, client, now, writeOk)
      ensures Post() == HubMail.PTTDown(old(Post()), before, client, now, writeOk)
    {
      var m := clients[client];
      GrantOutcome(old(Post()), before, State(), client, now, writeOk);
      if preempted != null {
        EndPreempted(m.channelID, preempted, m, now, writeOk);
      }
      ghost var k := State();
      assert k == if preempted != null then old(State()).WithRecordingEnded(m.channelID, now, writeOk)
        else old(State());
      recorder.OnTransmissionStart(m.channelID, m, now);
      assert State() == k.(recorder := k.recorder.Started(m.channelID, m, now));
      AnnounceTalking(m.channelID, client, m);
    }

    method RequestFloor(client: Client, now: nat) returns (reply: FloorReply)
      requires client in clients && clients[client].channelID in channels
      modifies this`channels
      ensures var id := clients[client].channelID;
              && State() == old(State()).WithFloor(id, old(State()).Requested(client, now).0)
              && State().Subs(id) == old(State()).Subs(id)
      ensures reply == old(State()).Requested(client, now).1
    {
      var (floor, answer) := State().Requested(client, now);
      SetFloor(clients[client].channelID, floor);
      reply := answer;
    }

    method HandlePTTDown(client: Client, now: nat, writeOk: bool)
      requires client in clients
      modifies this, recorder
      ensures State() == PTTDown(old(State()), client, now, writeOk)
      ensures Post() == HubMail.PTTDown(old(Post()), old(State()), client, now, writeOk)
    {
      var m := clients[client];
      var id := m.channelID;
      if id !in channels {
        SendJSON(client, ErrorText("channel not found"));
        return;
      }
      var reply := RequestFloor(client, now);
      if reply.granted {
        StartTransmission(client, reply.preempted, now, writeOk, old(State()));
      } else {
        SendPriorityJSON(client, FloorStatusChange(id, Denied, reply.reason, State().CallsignOf(reply.holder), ""));
      }
    }

    method HandlePTTUp(client: Client, now: nat, writeOk: bool)
      requires client in clients
      modifies this, recorder
      ensures State() == PTTUp(old(State()), client, now, writeOk)
      ensures Post() == HubMail.PTTUp(old(Post()), old(State()), client, now, writeOk)
    {
      var m := clients[client];
      var id := m.channelID;
      if id !in channels {
        return;
      }
      var (floor, released) := channels[id].floor.Released(client);
      SetFloor(id, floor);
      if released {
        assert State().Subs(id) == old(State()).Subs(id);
        var rec := FinishRecording(id, now, writeOk);
        if rec.Some? {
          AppendChat(id, VoiceMessage(id, m, rec.value));
        }
        AnnounceIdle(id, m.id, m.callsign);
      }
    }

    /** The callback of timer `t`: the channel's lock section, then handleTOTExpired. */
    method HandleTOTExpired(id: int, t: nat, now: nat, writeOk: bool)
      requires id in channels && t < |channels[id].floor.timers|
      modifies this, recorder
      ensures State() == TimeOut(old(State()), id, t, now, writeOk)
      ensures Post() == HubMail.TimeOut(old(Post()), old(State()), id, now, writeOk)
    {
      var speaker := channels[id].floor.speaker;
      SetFloor(id, channels[id].floor.TimedOut(t));
      if speaker != null {
        var rec := FinishRecording(id, now, writeOk);
        SendJSON(speaker, FloorStatusChange(id, Timeout, "time_out_timer_exceeded", "", ""));
        AnnounceIdle(id, State().IdOf(speaker), State().CallsignOf(speaker));
      }
    }

    method HandleBinaryAudio(client: Client, data: seq<byte>)
      requires client in clients
      modifies this, recorder
      ensures State() == BinaryAudio(old(State()), client, data)
      ensures Post() == HubMail.BinaryAudio(old(Post()), old(State()), client, data)
    {
      var header := Protocol.ParseAudioHeaderQuick(data);
      if header.None? {
        return;
      }
      var id: int := header.value.channelID;
      if id !in channels {
        return;
      }
      if clients[client].channelID != id || !(channels[id].floor.isBusy && channels[id].floor.speaker == client) {
        return;
      }
      log := Logged(log, Heard(id, data[Protocol.AUDIO_HEADER_SIZE..]));
      if |data| > Protocol.AUDIO_HEADER_SIZE {
        recorder.AppendAudio(id, data[Protocol.AUDIO_HEADER_SIZE..]);
      }
      if Protocol.IsAllCall(header.value.flags) {
        BroadcastAllCall(client, data);
      } else {
        EnqueueTo(channels[id].floor.subscribers - {client}, Audio(data));
      }
    }

    /** The range over all channels, each broadcasting to its own subscribers. */
    method BroadcastAllCall(client: Client, data: seq<byte>)
      modifies this`mailboxes
      ensures Post() == HubMail.DeliverAllCall(old(Post()), State(), client, Audio(data))
    {
      var rest: set<int> := channels.Keys;
      ghost var done: set<int> := {};
      HeardViaNone(old(mailboxes), State(), client, Audio(data));
      while rest != {}
        invariant rest + done == channels.Keys && rest !! done
        invariant mailboxes == HeardVia(old(mailboxes), State(), client, Audio(data), done)
      {
        var id := Pick(rest);
        HeardViaOneMore(old(mailboxes), State(), client, Audio(data), done, id);
        EnqueueTo(State().Subs(id) - {client}, Audio(data));
        rest, done := rest - {id}, done + {id};
      }
      assert done == channels.Keys;
      HeardViaAll(old(Post()), State(), client, Audio(data));
    }

    /** Audio from a gateway, already checked by the gateway server. */
    method HandleRoIPAudio(id: int, data: seq<byte>)
      modifies this`mailboxes
      ensures Post() == HubMail.RoIPAudio(old(Post()), State(), id, data)
    {
      if id in channels {
        EnqueueTo(channels[id].floor.subscribers, Audio(data));
      }
    }

    method HandleChatMessage(client: Client, text: string, fileURL: string)
      requires client in clients
      modifies this, recorder
      ensures State() == PostChat(old(State()), client, text, fileURL)
      ensures Post() == HubMail.PostChat(old(Post()), old(State()), client, text, fileURL)
    {
      var m := clients[client];
      var t := Roles.TrimSpace(text);
      if |t| > 500 {
        t := t[..500];
      }
      assert t == ChatText(text);
      if t != "" || fileURL != "" {
        var entry := ChatMessage(m.channelID, m.id, m.callsign, Text(t, fileURL));
        assert entry == ChatEntry(m, text, fileURL);
        AppendChat(m.channelID, entry);
        if m.channelID in channels {
          BroadcastSignal(m.channelID, Chat(entry));
        }
      }
    }

    method HandleVideoCallStart(client: Client, isScreen: bool)
      requires client in clients
      modifies this, recorder
      ensures State() == StartVideo(old(State()), client, isScreen)
      ensures Post() == HubMail.StartVideo(old(Post()), old(State()), client, isScreen)
    {
      var m := clients[client];
      var video := Video(m.channelID, m.id, m.callsign, isScreen);
      activeVideoByChannel := activeVideoByChannel[m.channelID := video];
      if m.channelID in channels {
        BroadcastSignal(m.channelID, VideoCallStart(video));
      }
    }

    method HandleVideoCallEnd(client: Client)
      requires client in clients
      modifies this, recorder
      ensures State() == StopVideo(old(State()), client)
      ensures Post() == HubMail.StopVideo(old(Post()), old(State()), client)
    {
      var m := clients[client];
      if m.channelID in activeVideoByChannel && activeVideoByChannel[m.channelID].senderID == m.id {
        activeVideoByChannel := activeVideoByChannel - {m.channelID};
        if m.channelID in channels {
          BroadcastSignal(m.channelID, VideoCallEnd(m.channelID, m.id, m.callsign));
        }
      }
    }

    /** Whatever arrives next, the hub takes the step of the state machine and keeps its invariant. */
    method Handle(e: HubRuns.Event)
      requires Valid() && HubRuns.Enabled(State(), e)
      modifies this, recorder
      ensures State() == HubRuns.Next(old(State()), e)
      ensures Post() == HubSystem.NextMail(old(Post()), old(State()), e)
      ensures Valid()
    {
      Dispatch(e);
      HubRuns.StepKeepsPlacement(old(State()), e);
      HubSystem.StepKeepsPicture(old(State()), Replay(old(log)), e);
      HubSystem.EveryStepIsSeen(old(Post()), old(State()), e);
      HubSystem.BoxesFollowMembers(old(Post()), old(State()), e);
    }

    method Dispatch(e: HubRuns.Event)
      requires HubRuns.Enabled(State(), e)
      modifies this, recorder
      ensures State() == HubRuns.Next(old(State()), e)
      ensures Post() == HubSystem.NextMail(old(Post()), old(State()), e)
    {
      match e
      case Connect(c, m, pick) => RegisterClient(c, m, pick);
      case Disconnect(c) => UnregisterClient(c);
      case SetIdentity(c, callsign, role) => HandleIdentify(c, callsign, role);
      case Join(c, id, password) => SwitchChannel(c, id, password);
      case Create(c, name, isPrivate, password) => HandleCreateChannel(c, name, isPrivate, password);
      case Press(c, now, ok) => HandlePTTDown(c, now, ok);
      case LetGo(c, now, ok) => HandlePTTUp(c, now, ok);
      case FireTimer(id, t) => SetFloor(id, channels[id].floor.Fired(t));
      case Expire(id, t, now, ok) => HandleTOTExpired(id, t, now, ok);
      case Packet(c, data) => HandleBinaryAudio(c, data);
      case GatewayPacket(id, data) => HandleRoIPAudio(id, data);
      case Say(c, text, fileURL) => HandleChatMessage(c, text, fileURL);
      case VideoOn(c, isScreen) => HandleVideoCallStart(c, isScreen);
      case VideoOff(c) => HandleVideoCallEnd(c);
    }
  }

  predicate Grants(k: Core, c: Client, now: nat) {
    c in k.members && k.members[c].channelID in k.channels && k.Requested(c, now).1.granted
  }

  /** The granted branch, told from the state `k1` in which the floor has changed already. */
  lemma GrantOutcome(mail: HubMail.Mail, k: Core, k1: Core, c: Client, now: nat, writeOk: bool)
    requires Grants(k, c, now)
    requires k1 == k.WithFloor(k.members[c].channelID, k.Requested(c, now).0)
    requires k1.Subs(k.members[c].channelID) == k.Subs(k.members[c].channelID)
    ensures var m := k.members[c];
            var id, loser := m.channelID, k.Requested(c, now).1.preempted;
            HubMail.PTTDown(mail, k, c, now, writeOk) ==
              (if loser != null then HubMail.AnnouncePreemption(mail, k1, id, loser, m, now, writeOk) else mail)
                .AnnounceTalking(k.Subs(id), k.members.Keys, id, c, m)
    ensures var m := k.members[c];
            var k2 := if k.Requested(c, now).1.preempted != null then k1.WithRecordingEnded(m.channelID, now, writeOk)
              else k1;
            PTTDown(k, c, now, writeOk) == k2.(recorder := k2.recorder.Started(m.channelID, m, now))
  {
  }

  lemma SameHistory(mail: HubMail.Mail, k: Core, k1: Core, c: Client, id: int)
    requires k1.chatHistory == k.chatHistory && k1.activeVideo == k.activeVideo
    ensures mail.SendHistory(k1, c, id, true) == mail.SendHistory(k, c, id, true)
  {
  }

  /** What the queues look like once the channels in `via` have broadcast to their subscribers. */
  ghost function HeardVia(boxes: map<Client, Mailbox>, k: Core, sender: Client, f: Frame,
                          via: set<int>): map<Client, Mailbox> {
    map c | c in boxes ::
      if c == sender then boxes[c] else boxes[c].EnqueueTimes(f, |HubMail.Subscriptions(k, c) * via|)
  }

  /** The next element of a range over a set, in no particular order. */
  method Pick<T>(s: set<T>) returns (x: T)
    requires s != {}
    ensures x in s
  {
    x :| x in s;
  }

  lemma HeardViaOneMore(boxes: map<Client, Mailbox>, k: Core, sender: Client, f: Frame, via: set<int>, id: int)
    requires id in k.channels && id !in via
    ensures HubMail.Delivered(HeardVia(boxes, k, sender, f, via), k.Subs(id) - {sender}, f)
            == HeardVia(boxes, k, sender, f, via + {id})
  {
    forall c | c in boxes
      ensures var s := HubMail.Subscriptions(k, c);
              |s * (via + {id})| == |s * via| + if c in k.Subs(id) then 1 else 0
    {
      var s := HubMail.Subscriptions(k, c);
      assert s * (via + {id}) == if id in s then s * via + {id} else s * via;
    }
  }

  lemma HeardViaNone(boxes: map<Client, Mailbox>, k: Core, sender: Client, f: Frame)
    ensures HeardVia(boxes, k, sender, f, {}) == boxes
  {
  }

  lemma HeardViaAll(mail: HubMail.Mail, k: Core, sender: Client, f: Frame)
    ensures HeardVia(mail.boxes, k, sender, f, k.channels.Keys) == HubMail.DeliverAllCall(mail, k, sender, f).boxes
  {
    forall c | c in mail.boxes
      ensures HeardVia(mail.boxes, k, sender, f, k.channels.Keys)[c] ==
              HubMail.DeliverAllCall(mail, k, sender, f).boxes[c]
    {
      assert HubMail.Subscriptions(k, c) * k.channels.Keys == HubMail.Subscriptions(k, c);
    }
  }
}
