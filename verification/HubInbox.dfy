/**
 What every client is told: after each step its queues have been offered the broadcasts the log shows for its channel
 and for everyone, in the order of the log, and beyond these only what is addressed to it alone, and accepted audio.
 */
module HubInbox {
  import opened Clients
  import opened HubCore
  import opened HubDelivery
  import opened HubLog
  import opened HubNews
  import opened HubOffers
  import opened HubRuns
  import opened HubTiming
  import opened Messages
  import opened Wrappers
  import HubMail
  import HubSystem

  // ---- Presses ----

  /**
   The answer to a press, told from the states: the client learns that it speaks, or who does; a client that spoke and
   does not any more learns who displaced it; nobody else is signalled.
   */
  function Signal(k: Core, e: Event, r: Core, d: Client): Option<Message>
    requires Enabled(k, e)
  {
    if !e.Press? then None
    else
      var m := k.members[e.client];
      var id := m.channelID;
      var now := SpeakerAt(r, id);
      if d == e.client then
        if now == d then Some(FloorStatusChange(id, Granted, "", m.callsign, m.id))
        else Some(FloorStatusChange(id, Denied, "channel_busy", r.CallsignOf(now), ""))
      else if d == SpeakerAt(k, id) && d != now then
        Some(FloorStatusChange(id, Denied, "preempted_by_dispatcher", r.CallsignOf(now), r.IdOf(now)))
      else None
  }

  lemma GrantTells(mail: Mail, k: Core, c: Client, now: nat, ok: bool, d: Client)
    requires Placed(k) && c in k.members && d in k.members && d in mail.boxes && k.Requested(c, now).1.granted
    ensures var m, loser := k.members[c], k.Requested(c, now).1.preempted;
            TellsAnd(mail, HubMail.PTTDown(mail, k, c, now, ok), d, k.members[d].channelID,
              if d == c then Some(FloorStatusChange(m.channelID, Granted, "", m.callsign, m.id))
              else if d == loser then
                Some(FloorStatusChange(m.channelID, Denied, "preempted_by_dispatcher", m.callsign, m.id))
              else None)
  {
    var m, loser, id := k.members[c], k.Requested(c, now).1.preempted, k.members[d].channelID;
    var m1 := Displacing(mail, k, c, now, ok);
    var notice := FloorStatusChange(m.channelID, Denied, "preempted_by_dispatcher", m.callsign, m.id);
    ReplyTold(k, c, now, ok);
    if loser != null {
      var rec := k.recorder.Ended(m.channelID, now, ok).1;
      RecordingTells(mail, k.Subs(m.channelID), m.channelID, rec, d, id);
      SignalTells(mail, mail.AnnounceRecording(k.Subs(m.channelID), m.channelID, rec), loser, notice, d, id, None);
    } else {
      UnchangedTells(mail, mail, d, id);
    }
    GrantedPress(mail, k, c, now, ok);
    var told := if d == loser then Some(notice) else None;
    TalkingTells(mail, m1, k.Subs(m.channelID), k.members.Keys, m.channelID, c, m, d, id, told);
  }

  lemma PressTells(mail: Mail, k: Core, c: Client, now: nat, ok: bool, d: Client)
    requires Placed(k) && c in k.members && d in k.members && d in mail.boxes
    ensures TellsAnd(mail, HubMail.PTTDown(mail, k, c, now, ok), d, k.members[d].channelID,
              Signal(k, Press(c, now, ok), PTTDown(k, c, now, ok), d))
  {
    ReplyTold(k, c, now, ok);
    if k.Requested(c, now).1.granted {
      GrantTells(mail, k, c, now, ok, d);
    } else {
      var m, reply := k.members[c], k.Requested(c, now).1;
      var notice := FloorStatusChange(m.channelID, Denied, reply.reason, k.CallsignOf(reply.holder), "");
      UnchangedTells(mail, mail, d, k.members[d].channelID);
      SignalTells(mail, mail, c, notice, d, k.members[d].channelID, None);
    }
  }

  // ---- Departures ----

  lemma LeaveTells(mail: Mail, k: Core, c: Client, d: Client, id: int)
    requires Placed(k) && c in k.members && d in k.members && d in mail.boxes
    requires if d == c then id != k.members[c].channelID else id == k.members[d].channelID
    ensures Tells(mail, HubMail.Leave(mail, k, c), d, id)
  {
    var m := k.members[c];
    var from := m.channelID;
    var targets := k.Subs(from) - {c};
    var m1 := mail.BroadcastUserList(targets, from);
    BroadcastTells(mail, targets, from, UserList(from, |targets|), d, id);
    var m2 := m1;
    if k.channels[from].floor.speaker == c {
      m2 := m1.AnnounceIdle(targets, k.members.Keys, from, m.id, m.callsign);
      IdleTells(m1, targets, k.members.Keys, from, m.id, m.callsign, d, id);
      TellsOn(mail, m1, m2, d, id);
    }
    if k.IsVideoSender(from, m.id) {
      BroadcastTells(m2, targets, from, VideoCallEnd(from, m.id, m.callsign), d, id);
      TellsOn(mail, m2, m2.AnnounceVideoEnd(targets, from, m), d, id);
    }
  }

  lemma DisconnectTells(mail: Mail, k: Core, c: Client, d: Client)
    requires Placed(k) && c in k.members && d in k.members && d != c && d in mail.boxes
    ensures Tells(mail, HubMail.Unregister(mail, k, c), d, k.members[d].channelID)
  {
    var m, id := k.members[c], k.members[d].channelID;
    var from := m.channelID;
    var targets := k.Subs(from) - {c};
    var m1 := mail.(boxes := mail.boxes - {c});
    UnchangedTells(mail, m1, d, id);
    var m2 := m1.BroadcastUserList(targets, from);
    BroadcastTells(m1, targets, from, UserList(from, |targets|), d, id);
    TellsOn(mail, m1, m2, d, id);
    var m3 := m2;
    if k.IsVideoSender(from, m.id) {
      m3 := m2.AnnounceVideoEnd(targets, from, m);
      BroadcastTells(m2, targets, from, VideoCallEnd(from, m.id, m.callsign), d, id);
      TellsOn(mail, m2, m3, d, id);
    }
    if k.channels[from].floor.speaker == c {
      IdleTells(m3, targets, k.members.Keys - {c}, from, m.id, m.callsign, d, id);
      TellsOn(mail, m3, m3.AnnounceIdle(targets, k.members.Keys - {c}, from, m.id, m.callsign), d, id);
    }
  }

  /** The chat history and the video of a channel, for a client that enters it. */
  function HistoryOf(r: Core, id: int, always: bool): seq<Frame> {
    var hist := if id in r.chatHistory then r.chatHistory[id] else [];
    (if always || hist != [] then [Json(ChatHistory(id, hist))] else [])
    + if id in r.activeVideo then [Json(VideoCallStart(r.activeVideo[id]))] else []
  }

  lemma HistoryGets(m: Mail, k: Core, c: Client, id: int, always: bool, d: Client)
    requires d in m.boxes
    ensures Gets(m, m.SendHistory(k, c, id, always), d, if d == c then HistoryOf(k, id, always) else [])
  {
    var hist := Lookup(k.chatHistory, id);
    var m1 := if always || |hist| > 0 then m.SendJSON(c, ChatHistory(id, hist)) else m;
    var a := if d == c && (always || hist != []) then [Json(ChatHistory(id, hist))] else [];
    SendGets(m, c, ChatHistory(id, hist), d);
    assert Gets(m, m1, d, a);
    if id in k.activeVideo {
      SendGets(m1, c, VideoCallStart(k.activeVideo[id]), d);
      GetsOn(m, m1, m1.SendJSON(c, VideoCallStart(k.activeVideo[id])), d, a,
        if d == c then [Json(VideoCallStart(k.activeVideo[id]))] else []);
    }
  }

  // ---- Newcomers ----

  /** What a client that has just connected is sent. */
  function Welcome(r: Core, c: Client): seq<Frame>
    requires c in r.members
  {
    var m := r.members[c];
    [Json(ClientWelcome(m.id, m.callsign, m.channelID)), Json(ChannelList(GetChannelList(r)))]
    + HistoryOf(r, m.channelID, false)
  }

  /** What a client that has just entered a channel is sent. */
  function Arrival(r: Core, c: Client): seq<Frame>
    requires c in r.members
  {
    var id := r.members[c].channelID;
    var speaker := SpeakerAt(r, id);
    [Json(FloorStatusChange(id, if speaker == null then Idle else Busy, "", r.CallsignOf(speaker), ""))]
    + HistoryOf(r, id, true)
  }

  /** Why a client that wanted to join channel `target` stays where it is. */
  function Refusal(k: Core, c: Client, target: int): seq<Frame>
    requires c in k.members
  {
    if target !in k.channels then [Json(ErrorText("channel does not exist"))]
    else if k.members[c].channelID == target then []
    else [Json(ErrorText("incorrect password for private channel"))]
  }

  /** `c` is sent `msg`, then the history of channel `id`. */
  lemma SendWithHistoryGets(m: Mail, r: Core, c: Client, msg: Message, id: int, always: bool, d: Client)
    requires d in m.boxes
    ensures Gets(m, m.SendJSON(c, msg).SendHistory(r, c, id, always), d,
              if d == c then [Json(msg)] + HistoryOf(r, id, always) else [])
  {
    var m1 := m.SendJSON(c, msg);
    SendGets(m, c, msg, d);
    HistoryGets(m1, r, c, id, always, d);
    if d == c {
      GetsOn(m, m1, m1.SendHistory(r, c, id, always), d, [Json(msg)], HistoryOf(r, id, always));
    }
  }

  lemma WelcomeGets(m: Mail, r: Core, c: Client, d: Client)
    requires c in r.members && d in m.boxes
    ensures var u := r.members[c];
            Gets(m, m.SendJSON(c, ClientWelcome(u.id, u.callsign, u.channelID))
                     .SendJSON(c, ChannelList(GetChannelList(r))).SendHistory(r, c, u.channelID, false),
              d, if d == c then Welcome(r, c) else [])
  {
    var u := r.members[c];
    var hello, list := ClientWelcome(u.id, u.callsign, u.channelID), ChannelList(GetChannelList(r));
    var m1 := m.SendJSON(c, hello);
    SendGets(m, c, hello, d);
    SendWithHistoryGets(m1, r, c, list, u.channelID, false, d);
    if d == c {
      var rest := [Json(list)] + HistoryOf(r, u.channelID, false);
      GetsOn(m, m1, m1.SendJSON(c, list).SendHistory(r, c, u.channelID, false), d, [Json(hello)], rest);
      assert [Json(hello)] + rest == Welcome(r, c);
    }
  }

  lemma ConnectGets(mail: Mail, k: Core, c: Client, m: Member, pick: int, r: Core, d: Client)
    requires Placed(k) && c !in k.members && pick in k.channels && r == Register(k, c, m, pick) && d in r.members
    requires d in k.members ==> d in mail.boxes
    ensures Gets(mail.(boxes := mail.boxes[c := Mailbox([], [], false)]),
              HubMail.Register(mail, k, c, m, Mailbox([], [], false), pick), d,
              Public(Members(r, r.members[c].channelID), r.members[d].channelID)
              + if d == c then Welcome(r, c) else [])
  {
    var home, id := Home(k, m, pick), r.members[d].channelID;
    var m1 := mail.(boxes := mail.boxes[c := Mailbox([], [], false)]);
    var m2 := m1.BroadcastUserList(k.Subs(home) + {c}, home);
    assert r.Subs(home) == k.Subs(home) + {c};
    BroadcastTells(m1, k.Subs(home) + {c}, home, UserList(home, |k.Subs(home) + {c}|), d, id);
    TellsGets(m1, m2, d, id, Members(r, home));
    WelcomeGets(m2, r, c, d);
    GetsOn(m1, m2, HubMail.Register(mail, k, c, m, Mailbox([], [], false), pick), d, Public(Members(r, home), id),
      if d == c then Welcome(r, c) else []);
  }

  /** The messages for the newcomer, from the state before it subscribes. */
  lemma ArrivalIsSent(mail: Mail, k: Core, c: Client, id: int)
    requires PlacedBut(k, c) && id in k.channels
    ensures var r := Arrive(k, c, id);
            var speaker := SpeakerAt(r, id);
            var status := FloorStatusChange(id, if speaker == null then Idle else Busy, "", r.CallsignOf(speaker), "");
            && r.Subs(id) == k.Subs(id) + {c} && r.members[c].channelID == id
            && HistoryOf(k, id, true) == HistoryOf(r, id, true)
            && HubMail.Arrive(mail, k, c, id) ==
               mail.BroadcastUserList(k.Subs(id) + {c}, id).SendJSON(c, status).SendHistory(k, c, id, true)
  {
    assert Arrive(k, c, id).Subs(id) == k.Subs(id) + {c};
  }

  lemma ArrivalGets(mail: Mail, k: Core, c: Client, id: int, d: Client)
    requires PlacedBut(k, c) && id in k.channels && d in k.members && d in mail.boxes
    ensures var r := Arrive(k, c, id);
            Gets(mail, HubMail.Arrive(mail, k, c, id), d,
              Public(Members(r, id), r.members[d].channelID) + if d == c then Arrival(r, c) else [])
  {
    var r := Arrive(k, c, id);
    var home, speaker := r.members[d].channelID, SpeakerAt(r, id);
    ArrivalIsSent(mail, k, c, id);
    var m1 := mail.BroadcastUserList(k.Subs(id) + {c}, id);
    BroadcastTells(mail, k.Subs(id) + {c}, id, UserList(id, |k.Subs(id) + {c}|), d, home);
    TellsGets(mail, m1, d, home, Members(r, id));
    var status := FloorStatusChange(id, if speaker == null then Idle else Busy, "", r.CallsignOf(speaker), "");
    SendWithHistoryGets(m1, k, c, status, id, true, d);
    GetsOn(mail, m1, HubMail.Arrive(mail, k, c, id), d, Public(Members(r, id), home),
      if d == c then Arrival(r, c) else []);
  }

  // ---- Moves ----

  lemma LeaveGets(mail: Mail, k: Core, c: Client, r: Core, d: Client, id: int)
    requires Placed(k) && c in k.members && d in k.members && d in mail.boxes
    requires if d == c then id != k.members[c].channelID else id == k.members[d].channelID
    requires Departed(k, r, c, k.members[c].channelID)
    ensures Gets(mail, HubMail.Leave(mail, k, c), d, Public(Parted(k, r, k.members[c].channelID), id))
  {
    LeaveTells(mail, k, c, d, id);
    LeaveIsNews(mail, k, r, c);
    TellsGets(mail, HubMail.Leave(mail, k, c), d, id, Parted(k, r, k.members[c].channelID));
  }

  lemma EnteringGets(mail: Mail, k: Core, c: Client, target: int, password: string, r: Core, d: Client)
    requires Placed(k) && c in k.members && d in k.members && d in mail.boxes
    requires JudgeSwitch(k, c, target, password).Enter? && r == SwitchChannel(k, c, target, password)
    ensures Gets(mail, HubMail.SwitchChannel(mail, k, c, target, password), d,
              Public(Relocated(k, r, c), r.members[d].channelID) + if d == c then Arrival(r, c) else [])
  {
    var id := r.members[d].channelID;
    var m1 := HubMail.Leave(mail, k, c);
    SwitchIsDeparture(k, c, target, password);
    LeaveGets(mail, k, c, r, d, id);
    LeaveIsPlacedBut(k, c);
    ArrivalGets(m1, Leave(k, c), c, target, d);
    var a, b, own := Parted(k, r, k.members[c].channelID), Members(r, target), if d == c then Arrival(r, c) else [];
    GetsOn(mail, m1, HubMail.SwitchChannel(mail, k, c, target, password), d, Public(a, id), Public(b, id) + own);
    PublicAppend(a, b, id);
    Regroup(Public(a, id), Public(b, id), own);
  }

  /** What a client that wanted to go to channel `target` is sent. */
  function Answer(k: Core, r: Core, c: Client, target: int): seq<Frame>
    requires c in k.members && c in r.members
  {
    if r.members[c].channelID != k.members[c].channelID then Arrival(r, c) else Refusal(k, c, target)
  }

  lemma RefusalGets(mail: Mail, k: Core, c: Client, target: int, password: string, d: Client)
    requires c in k.members && d in mail.boxes && !JudgeSwitch(k, c, target, password).Enter?
    ensures Gets(mail, HubMail.SwitchChannel(mail, k, c, target, password), d,
              if d == c then Refusal(k, c, target) else [])
  {
    SendGets(mail, c, ErrorText("channel does not exist"), d);
    SendGets(mail, c, ErrorText("incorrect password for private channel"), d);
  }

  lemma SwitchGets(mail: Mail, k: Core, c: Client, target: int, password: string, r: Core, d: Client)
    requires Placed(k) && c in k.members && d in k.members && d in mail.boxes
    requires r == SwitchChannel(k, c, target, password)
    ensures Gets(mail, HubMail.SwitchChannel(mail, k, c, target, password), d,
              Public(Relocated(k, r, c), r.members[d].channelID) + if d == c then Answer(k, r, c, target) else [])
  {
    if JudgeSwitch(k, c, target, password).Enter? {
      EnteringGets(mail, k, c, target, password, r, d);
    } else {
      RefusalGets(mail, k, c, target, password, d);
      assert Public(Relocated(k, r, c), r.members[d].channelID) == [];
    }
  }

  lemma CreatorEnters(mail: Mail, k: Core, c: Client, name: string, isPrivate: bool, password: string)
    requires Placed(k) && c in k.members && name != ""
    ensures var k1, id := AddChannel(k, name, isPrivate, password), NewChannelID(k);
            && Placed(k1) && k1.members == k.members && JudgeSwitch(k1, c, id, password).Enter?
            && CreateChannel(k, c, name, isPrivate, password) == SwitchChannel(k1, c, id, password)
            && HubMail.CreateChannel(mail, k, c, name, isPrivate, password) ==
               HubMail.SwitchChannel(
                 mail.BroadcastAll(k.members.Keys, ChannelList(GetChannelList(k1))), k1, c, id, password)
  {
    AddChannelKeepsPlacement(k, name, isPrivate, password);
  }

  lemma CreateGets(mail: Mail, k: Core, c: Client, name: string, isPrivate: bool, password: string, r: Core, d: Client)
    requires Placed(k) && c in k.members && d in k.members && d in mail.boxes && name != ""
    requires r == CreateChannel(k, c, name, isPrivate, password)
    ensures Gets(mail, HubMail.CreateChannel(mail, k, c, name, isPrivate, password), d,
              Public(Created(k, r, c, name, isPrivate, password), r.members[d].channelID)
              + if d == c then Arrival(r, c) else [])
  {
    var k1, id := AddChannel(k, name, isPrivate, password), r.members[d].channelID;
    var list := ChannelList(GetChannelList(k1));
    var m1 := mail.BroadcastAll(k.members.Keys, list);
    CreatorEnters(mail, k, c, name, isPrivate, password);
    BroadcastAllTells(mail, k.members.Keys, list, d, id);
    TellsGets(mail, m1, d, id, [Sent(Everyone, list)]);
    EnteringGets(m1, k1, c, NewChannelID(k), password, r, d);
    RelocationAgrees(k, k1, r, c);
    var a, b, own := [Sent(Everyone, list)], Relocated(k, r, c), if d == c then Arrival(r, c) else [];
    var m2 := HubMail.CreateChannel(mail, k, c, name, isPrivate, password);
    GetsOn(mail, m1, m2, d, Public(a, id), Public(b, id) + own);
    PublicAppend(a, b, id);
    Regroup(Public(a, id), Public(b, id), own);
  }

  // ---- The floor ----

  lemma LetGoTells(mail: Mail, k: Core, c: Client, now: nat, ok: bool, d: Client)
    requires Placed(k) && c in k.members && d in k.members && d in mail.boxes
    ensures Tells(mail, HubMail.PTTUp(mail, k, c, now, ok), d, k.members[d].channelID)
  {
    var m, home := k.members[c], k.members[d].channelID;
    var id := m.channelID;
    if k.channels[id].floor.speaker == c {
      var rec := k.recorder.Ended(id, now, ok).1;
      var m1 := mail.AnnounceRecording(k.Subs(id), id, rec);
      RecordingTells(mail, k.Subs(id), id, rec, d, home);
      var m2 := WithVoice(mail, k, id, m, now, ok);
      if rec.Some? {
        NoteTells(m1, Wrote(id, VoiceMessage(id, m, rec.value)), d, home);
        TellsOn(mail, m1, m2, d, home);
      }
      IdleTells(m2, k.Subs(id), k.members.Keys, id, m.id, m.callsign, d, home);
      TellsOn(mail, m2, HubMail.PTTUp(mail, k, c, now, ok), d, home);
    } else {
      UnchangedTells(mail, mail, d, home);
    }
  }

  /** The time of whoever spoke on channel `id` is over: it is told between the recording and the silence. */
  function Overdue(k: Core, id: int, now: nat, ok: bool, r: Core, d: Client, home: int): seq<Frame> {
    if SpeakerAt(k, id) == null then []
    else
      var notice := FloorStatusChange(id, Timeout, "time_out_timer_exceeded", "", "");
      Public(Archived(k, id, now, ok), home)
      + (if d == SpeakerAt(k, id) then [Json(notice)] else [])
      + Public(Silence(k, r, id), home)
  }

  lemma OverdueGets(m: Mail, k: Core, id: int, now: nat, ok: bool, speaker: Client, d: Client)
    requires Placed(k) && id in k.channels && d in k.members && d in m.boxes
    ensures var home, userID, callsign := k.members[d].channelID, k.IdOf(speaker), k.CallsignOf(speaker);
            var notice := FloorStatusChange(id, Timeout, "time_out_timer_exceeded", "", "");
            Gets(m, m.AnnounceRecording(k.Subs(id), id, k.recorder.Ended(id, now, ok).1).SendJSON(speaker, notice)
                     .AnnounceIdle(k.Subs(id), k.members.Keys, id, userID, callsign), d,
              Public(Archived(k, id, now, ok), home) + (if d == speaker then [Json(notice)] else [])
              + Public(Stops(id, userID, callsign), home))
  {
    var home, userID, callsign := k.members[d].channelID, k.IdOf(speaker), k.CallsignOf(speaker);
    var notice := FloorStatusChange(id, Timeout, "time_out_timer_exceeded", "", "");
    var rec := k.recorder.Ended(id, now, ok).1;
    var m1 := m.AnnounceRecording(k.Subs(id), id, rec);
    RecordingTells(m, k.Subs(id), id, rec, d, home);
    RecordingLog(m, k, id, now, ok);
    var a, b := Public(Archived(k, id, now, ok), home), Public(Stops(id, userID, callsign), home);
    TellsGets(m, m1, d, home, Archived(k, id, now, ok));
    var own := if d == speaker then [Json(notice)] else [];
    var m2 := m1.SendJSON(speaker, notice);
    SendGets(m1, speaker, notice, d);
    GetsOn(m, m1, m2, d, a, own);
    var m3 := m2.AnnounceIdle(k.Subs(id), k.members.Keys, id, userID, callsign);
    IdleTells(m2, k.Subs(id), k.members.Keys, id, userID, callsign, d, home);
    IdleLog(m2, k.Subs(id), k.members.Keys, id, userID, callsign);
    TellsGets(m2, m3, d, home, Stops(id, userID, callsign));
    GetsOn(m, m2, m3, d, a + own, b);
  }

  lemma ExpireGets(mail: Mail, k: Core, id: int, t: nat, now: nat, ok: bool, r: Core, d: Client)
    requires Placed(k) && id in k.channels && t < |k.channels[id].floor.timers| && d in k.members && d in mail.boxes
    requires r == TimeOut(k, id, t, now, ok)
    ensures Gets(mail, HubMail.TimeOut(mail, k, id, now, ok), d, Overdue(k, id, now, ok, r, d, k.members[d].channelID))
  {
    var speaker := k.channels[id].floor.speaker;
    if speaker != null {
      OverdueGets(mail, k, id, now, ok, speaker, d);
    }
  }

  // ---- Every step ----

  /**
   What the step from `k` to `r` offers client `d`: the news of its channel and for everyone, in order, and beyond them
   what a newcomer, a mover or a refused client is sent, the notice to a speaker whose time is over, and audio.
   */
  function Inbox(k: Core, e: Event, r: Core, d: Client): seq<Frame>
    requires Enabled(k, e) && (e.Connect? || e.Join? || e.Create? ==> e.client in r.members)
    requires d in r.members
  {
    var home := r.members[d].channelID;
    var news := Public(News(k, e, r), home);
    match e
    case Connect(c, _, _) => news + if d == c then Welcome(r, c) else []
    case Join(c, target, _) => news + if d == c then Answer(k, r, c, target) else []
    case Create(c, name, _, _) => news + if d == c && name != "" then Arrival(r, c) else []
    case Expire(id, _, now, ok) => Overdue(k, id, now, ok, r, d, home)
    case Packet(c, data) =>
      if Accepts(k, c, data) && d != c && (AsksEveryone(data) || home == k.members[c].channelID) then [Audio(data)]
      else []
    case GatewayPacket(id, data) => if home == id then [Audio(data)] else []
    case _ => news
  }

  /** The queues of client `d` before step `e`: empty ones for a client that connects. */
  function QueuesOf(mail: Mail, e: Event, d: Client): Mailbox {
    if d in mail.boxes && !(e.Connect? && e.client == d) then mail.boxes[d] else Mailbox([], [], false)
  }

  ghost predicate IsTold(mail: Mail, after: Mail, k: Core, e: Event, r: Core, d: Client)
    requires Enabled(k, e) && (e.Connect? || e.Join? || e.Create? ==> e.client in r.members)
    requires d in r.members
  {
    && d in after.boxes
    && after.boxes[d] == Signalled(Offered(QueuesOf(mail, e, d), Inbox(k, e, r, d)), Signal(k, e, r, d))
  }

  /** The steps that offer a client nothing but news. */
  lemma OnlyNews(mail: Mail, after: Mail, k: Core, e: Event, r: Core, d: Client)
    requires Enabled(k, e) && d in k.members && d in r.members && r.members[d].channelID == k.members[d].channelID
    requires e.Disconnect? || e.SetIdentity? || e.LetGo? || e.Say? || e.VideoOn? || e.VideoOff?
    requires Tells(mail, after, d, k.members[d].channelID) && after.log == mail.log + News(k, e, r)
    ensures IsTold(mail, after, k, e, r, d)
  {
    TellsGets(mail, after, d, k.members[d].channelID, News(k, e, r));
  }

  lemma PressIsTold(mail: Mail, k: Core, e: Event, r: Core, d: Client)
    requires Placed(k) && Enabled(k, e) && r == Next(k, e) && mail.boxes.Keys == k.members.Keys && d in r.members
    requires e.Press?
    ensures IsTold(mail, HubSystem.NextMail(mail, k, e), k, e, r, d)
  {
    var after := HubSystem.NextMail(mail, k, e);
    PressTells(mail, k, e.client, e.now, e.writeOk, d);
    FloorIsNews(mail, k, e, r);
    assert after.log[|mail.log|..] == News(k, e, r);
  }

  lemma ComingOrGoingIsTold(mail: Mail, k: Core, e: Event, r: Core, d: Client)
    requires Placed(k) && Enabled(k, e) && r == Next(k, e) && mail.boxes.Keys == k.members.Keys && d in r.members
    requires e.Connect? || e.Disconnect?
    ensures e.Connect? ==> e.client in r.members
    ensures IsTold(mail, HubSystem.NextMail(mail, k, e), k, e, r, d)
  {
    ComingOrGoingIsNews(mail, k, e, r);
    if e.Connect? {
      ConnectGets(mail, k, e.client, e.profile, e.pick, r, d);
    } else {
      DisconnectTells(mail, k, e.client, d);
      OnlyNews(mail, HubSystem.NextMail(mail, k, e), k, e, r, d);
    }
  }

  lemma SwitchingIsTold(mail: Mail, k: Core, e: Event, r: Core, d: Client)
    requires Placed(k) && Enabled(k, e) && r == Next(k, e) && mail.boxes.Keys == k.members.Keys && d in r.members
    requires e.Join? || e.Create?
    ensures e.client in r.members
    ensures IsTold(mail, HubSystem.NextMail(mail, k, e), k, e, r, d)
  {
    SwitchingIsNews(mail, k, e, r);
    if e.Join? {
      SwitchGets(mail, k, e.client, e.channelID, e.password, r, d);
    } else if e.name != "" {
      CreateGets(mail, k, e.client, e.name, e.isPrivate, e.password, r, d);
    }
  }

  lemma ReleaseIsTold(mail: Mail, k: Core, e: Event, r: Core, d: Client)
    requires Placed(k) && Enabled(k, e) && r == Next(k, e) && mail.boxes.Keys == k.members.Keys && d in r.members
    requires e.LetGo? || e.Expire?
    ensures IsTold(mail, HubSystem.NextMail(mail, k, e), k, e, r, d)
  {
    if e.LetGo? {
      LetGoTells(mail, k, e.client, e.now, e.writeOk, d);
      FloorIsNews(mail, k, e, r);
      OnlyNews(mail, HubSystem.NextMail(mail, k, e), k, e, r, d);
    } else {
      ExpireGets(mail, k, e.channelID, e.timer, e.now, e.writeOk, r, d);
    }
  }

  lemma AudioIsTold(mail: Mail, k: Core, e: Event, r: Core, d: Client)
    requires Placed(k) && Enabled(k, e) && r == Next(k, e) && mail.boxes.Keys == k.members.Keys && d in r.members
    requires e.Packet? || e.GatewayPacket?
    ensures IsTold(mail, HubSystem.NextMail(mail, k, e), k, e, r, d)
  {
    assert [Audio(e.data)][..0] == [];
    if e.GatewayPacket? {
      GatewayReachesChannelOnce(mail, k, e.channelID, e.data, d);
    } else if !Accepts(k, e.client, e.data) {
      RejectedPacketChangesNothing(mail, k, e.client, e.data);
    } else if AsksEveryone(e.data) {
      AllCallReachesEveryoneOnce(mail, k, e.client, e.data, d);
    } else {
      PacketReachesChannelOnce(mail, k, e.client, e.data, d);
    }
  }

  lemma SayTells(mail: Mail, k: Core, c: Client, text: string, fileURL: string, d: Client)
    requires Placed(k) && c in k.members && d in k.members && d in mail.boxes
    ensures Tells(mail, HubMail.PostChat(mail, k, c, text, fileURL), d, k.members[d].channelID)
  {
    var m, home := k.members[c], k.members[d].channelID;
    if ChatText(text) == "" && fileURL == "" {
      UnchangedTells(mail, mail, d, home);
    } else {
      var msg := ChatEntry(m, text, fileURL);
      var m1 := mail.Note(Wrote(m.channelID, msg));
      NoteTells(mail, Wrote(m.channelID, msg), d, home);
      BroadcastTells(m1, k.Subs(m.channelID), m.channelID, Chat(msg), d, home);
      TellsOn(mail, m1, m1.Broadcast(k.Subs(m.channelID), m.channelID, Chat(msg)), d, home);
    }
  }

  lemma RenamingTells(mail: Mail, k: Core, e: Event, d: Client)
    requires Placed(k) && Enabled(k, e) && d in k.members && d in mail.boxes && e.SetIdentity?
    ensures Tells(mail, HubSystem.NextMail(mail, k, e), d, k.members[d].channelID)
  {
    var home, id := k.members[d].channelID, k.members[e.client].channelID;
    UnchangedTells(mail, mail, d, home);
    BroadcastTells(mail, k.Subs(id), id, UserList(id, |k.Subs(id)|), d, home);
  }

  lemma VideoTells(mail: Mail, k: Core, e: Event, d: Client)
    requires Placed(k) && Enabled(k, e) && d in k.members && d in mail.boxes && (e.VideoOn? || e.VideoOff?)
    ensures Tells(mail, HubSystem.NextMail(mail, k, e), d, k.members[d].channelID)
  {
    var m, home := k.members[e.client], k.members[d].channelID;
    var id := m.channelID;
    UnchangedTells(mail, mail, d, home);
    if e.VideoOn? {
      BroadcastTells(mail, k.Subs(id), id, VideoCallStart(VideoOf(m, e.isScreen)), d, home);
    } else {
      BroadcastTells(mail, k.Subs(id), id, VideoCallEnd(id, m.id, m.callsign), d, home);
    }
  }

  lemma SayIsTold(mail: Mail, k: Core, e: Event, r: Core, d: Client)
    requires Placed(k) && Enabled(k, e) && r == Next(k, e) && mail.boxes.Keys == k.members.Keys && d in r.members
    requires e.Say?
    ensures IsTold(mail, HubSystem.NextMail(mail, k, e), k, e, r, d)
  {
    SayIsNews(mail, k, e, r);
    SayTells(mail, k, e.client, e.text, e.fileURL, d);
    OnlyNews(mail, HubSystem.NextMail(mail, k, e), k, e, r, d);
  }

  lemma VideoIsTold(mail: Mail, k: Core, e: Event, r: Core, d: Client)
    requires Placed(k) && Enabled(k, e) && r == Next(k, e) && mail.boxes.Keys == k.members.Keys && d in r.members
    requires e.VideoOn? || e.VideoOff?
    ensures IsTold(mail, HubSystem.NextMail(mail, k, e), k, e, r, d)
  {
    VideoIsNews(mail, k, e, r);
    VideoTells(mail, k, e, d);
    OnlyNews(mail, HubSystem.NextMail(mail, k, e), k, e, r, d);
  }

  lemma RenamingIsTold(mail: Mail, k: Core, e: Event, r: Core, d: Client)
    requires Placed(k) && Enabled(k, e) && r == Next(k, e) && mail.boxes.Keys == k.members.Keys && d in r.members
    requires e.SetIdentity?
    ensures IsTold(mail, HubSystem.NextMail(mail, k, e), k, e, r, d)
  {
    QuietStepsAreNews(mail, k, e, r);
    RenamingTells(mail, k, e, d);
    OnlyNews(mail, HubSystem.NextMail(mail, k, e), k, e, r, d);
  }

  lemma FiringIsTold(mail: Mail, k: Core, e: Event, r: Core, d: Client)
    requires Placed(k) && Enabled(k, e) && r == Next(k, e) && mail.boxes.Keys == k.members.Keys && d in r.members
    requires e.FireTimer?
    ensures IsTold(mail, HubSystem.NextMail(mail, k, e), k, e, r, d)
  {
    UnchangedTells(mail, mail, d, k.members[d].channelID);
  }

  lemma SignalsAreTold(mail: Mail, k: Core, e: Event, r: Core, d: Client)
    requires Placed(k) && Enabled(k, e) && r == Next(k, e) && mail.boxes.Keys == k.members.Keys && d in r.members
    requires !IsMove(e)
    ensures IsTold(mail, HubSystem.NextMail(mail, k, e), k, e, r, d)
  {
    if e.Press? {
      PressIsTold(mail, k, e, r, d);
    } else if e.LetGo? || e.Expire? {
      ReleaseIsTold(mail, k, e, r, d);
    } else if e.Packet? || e.GatewayPacket? {
      AudioIsTold(mail, k, e, r, d);
    } else if e.Say? {
      SayIsTold(mail, k, e, r, d);
    } else if e.VideoOn? || e.VideoOff? {
      VideoIsTold(mail, k, e, r, d);
    } else if e.SetIdentity? {
      RenamingIsTold(mail, k, e, r, d);
    } else {
      FiringIsTold(mail, k, e, r, d);
    }
  }

  /**
   Every step offers every client exactly its inbox, in order: the entries the step logs for its channel or for
   everyone, once each, and what is addressed to it alone. A press signals exactly the one who pressed and the one it
   displaced.
   */
  lemma EveryClientIsTold(mail: Mail, k: Core, e: Event, r: Core, d: Client)
    requires Placed(k) && Enabled(k, e) && r == Next(k, e) && mail.boxes.Keys == k.members.Keys && d in r.members
    ensures e.Connect? || e.Join? || e.Create? ==> e.client in r.members
    ensures IsTold(mail, HubSystem.NextMail(mail, k, e), k, e, r, d)
  {
    if e.Connect? || e.Disconnect? {
      ComingOrGoingIsTold(mail, k, e, r, d);
    } else if e.Join? || e.Create? {
      SwitchingIsTold(mail, k, e, r, d);
    } else {
      SignalsAreTold(mail, k, e, r, d);
    }
  }

  // ---- Runs ----

  /** The frames are offered to an open client; the oldest of 64 makes room for each more, in either queue. */
  function Served(box: Mailbox, frames: seq<Frame>, signal: Option<Message>): Mailbox {
    if box.isClosed then box
    else
      box.(send := PushAll(box.send, frames, 64),
           highPri := if signal.Some? then Push(box.highPri, Json(signal.value), 64) else box.highPri)
  }

  lemma StepServes(mail: Mail, k: Core, e: Event, r: Core, d: Client)
    requires Placed(k) && Enabled(k, e) && r == Next(k, e) && mail.boxes.Keys == k.members.Keys && d in r.members
    ensures e.Connect? || e.Join? || e.Create? ==> e.client in r.members
    ensures var after := HubSystem.NextMail(mail, k, e);
            && after.log == mail.log + News(k, e, r)
            && d in after.boxes
            && after.boxes[d] == Served(QueuesOf(mail, e, d), Inbox(k, e, r, d), Signal(k, e, r, d))
  {
    EveryStepIsNews(mail, k, e, r);
    EveryClientIsTold(mail, k, e, r, d);
    OfferedIsPushAll(QueuesOf(mail, e, d), Inbox(k, e, r, d));
  }

  /**
   In every run: each step logs exactly its news, and every client registered after it has been offered exactly its
   inbox and its signal. A client whose pump has closed it gets nothing.
   */
  lemma RunTellsEveryone(cores: seq<Core>, mails: seq<Mail>, events: seq<Event>, i: nat, d: Client)
    requires HubSystem.IsSystemRun(cores, mails, events) && i < |events| && d in cores[i + 1].members
    ensures var e, r := events[i], cores[i + 1]; e.Connect? || e.Join? || e.Create? ==> e.client in r.members
    ensures var k, e, r, after := cores[i], events[i], cores[i + 1], HubSystem.NextMail(mails[i], cores[i], events[i]);
            && after.log == mails[i].log + News(k, e, r)
            && d in after.boxes
            && after.boxes[d] == Served(QueuesOf(mails[i], e, d), Inbox(k, e, r, d), Signal(k, e, r, d))
  {
    RunKeepsPlacement(cores, events, i);
    HubSystem.RunKeepsBoxes(cores, mails, events, i);
    StepServes(mails[i], cores[i], events[i], cores[i + 1], d);
  }

  /** What a press by `c` puts into the priority queue of `d`, from who spoke on the channel of `c` and who does now. */
  ghost predicate Answers(k: Core, r: Core, c: Client, d: Client, before: seq<Frame>, after: seq<Frame>)
    requires c in k.members && c in r.members
  {
    var m, id := r.members[c], k.members[c].channelID;
    var spoke, speaks := SpeakerAt(k, id), SpeakerAt(r, id);
    && speaks != null && speaks in r.members && r.members[speaks].channelID == id == m.channelID
    && (speaks == spoke || speaks == c)
    && after ==
       if d == c && speaks == c then Push(before, Json(FloorStatusChange(id, Granted, "", m.callsign, m.id)), 64)
       else if d == c then
         Push(before, Json(FloorStatusChange(id, Denied, "channel_busy", r.members[speaks].callsign, "")), 64)
       else if d == spoke && d != speaks then
         Push(before, Json(FloorStatusChange(id, Denied, "preempted_by_dispatcher", m.callsign, m.id)), 64)
       else before
  }

  lemma SignalAnswers(k: Core, c: Client, now: nat, ok: bool, r: Core, d: Client, box: Mailbox, frames: seq<Frame>)
    requires Placed(k) && c in k.members && r == PTTDown(k, c, now, ok) && !box.isClosed
    ensures Answers(k, r, c, d, box.highPri, Served(box, frames, Signal(k, Press(c, now, ok), r, d)).highPri)
  {
    ReplyTold(k, c, now, ok);
    PressKeepsPlacement(k, c, now, ok);
  }

  /**
   The answer to a press, in every run: the client that pressed is sent exactly one floor status of its channel, granted
   if and only if it speaks there now, otherwise denied with the callsign of whoever does. A client that spoke until now
   is told once that it was displaced, and by whom. No other step and no other client is signalled.
   */
  lemma RunAnswersPresses(cores: seq<Core>, mails: seq<Mail>, events: seq<Event>, i: nat, d: Client)
    requires HubSystem.IsSystemRun(cores, mails, events) && i < |events|
    requires d in cores[i].members && d in cores[i + 1].members && d in mails[i].boxes && !mails[i].boxes[d].isClosed
    ensures var k, e, r, box := cores[i], events[i], cores[i + 1], mails[i].boxes[d];
            var after := HubSystem.NextMail(mails[i], k, e);
            && d in after.boxes
            && (!e.Press? ==> after.boxes[d].highPri == box.highPri)
            && (e.Press? ==> e.client in r.members && Answers(k, r, e.client, d, box.highPri, after.boxes[d].highPri))
  {
    RunTellsEveryone(cores, mails, events, i, d);
    if events[i].Press? {
      RunKeepsPlacement(cores, events, i);
      var e := events[i];
      SignalAnswers(cores[i], e.client, e.now, e.writeOk, cores[i + 1], d, mails[i].boxes[d],
        Inbox(cores[i], e, cores[i + 1], d));
    }
  }
}
