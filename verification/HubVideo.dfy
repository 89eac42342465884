/** Video presence told by the events: in every run a channel records a video exactly while its broadcaster is on it. */
module HubVideo {
  import opened Clients
  import opened HubCore
  import opened HubLog
  import opened HubRuns
  import opened Messages
  import HubChannels
  import HubGrants
  import HubInbox
  import HubNews
  import HubOffers
  import HubTiming

  /** Step `n` starts a video on channel `id`. */
  predicate Starts(cores: seq<Core>, events: seq<Event>, id: int, n: nat)
    requires n < |events| < |cores|
  {
    var k, e := cores[n], events[n];
    e.VideoOn? && e.client in k.members && k.members[e.client].channelID == id
  }

  /** The latest of the first `i` steps that starts a video on channel `id`, or -1. */
  function LatestStart(cores: seq<Core>, events: seq<Event>, id: int, i: nat): (g: int)
    requires i <= |events| < |cores|
    ensures -1 <= g < i
  {
    HubGrants.Latest(seq(|events|, n requires 0 <= n < |events| => Starts(cores, events, id, n)), i)
  }

  predicate IsOn(k: Core, c: Client, id: int) {
    c in k.members && k.members[c].channelID == id
  }

  /** Client `c` has been on channel `id` after every step from `g` on, and has not stopped its video. */
  ghost predicate Broadcasts(cores: seq<Core>, events: seq<Event>, id: int, c: Client, g: nat, i: nat)
    requires i <= |events| < |cores|
  {
    forall n :: g < n <= i ==> IsOn(cores[n], c, id) && (n < i ==> events[n] != VideoOff(c))
  }

  /** What the events tell of the video on channel `id`. */
  ghost predicate VideoTold(cores: seq<Core>, events: seq<Event>, id: int, i: nat)
    requires i <= |events| < |cores|
  {
    var g := LatestStart(cores, events, id, i);
    if g < 0 then id !in cores[i].activeVideo
    else
      var c := events[g].client;
      && events[g].VideoOn? && c in cores[g].members
      && (id in cores[i].activeVideo <==> Broadcasts(cores, events, id, c, g, i))
      && (id in cores[i].activeVideo ==>
            var m := cores[g].members[c];
            && cores[i].activeVideo[id] == Video(id, m.id, m.callsign, events[g].isScreen)
            && IsOn(cores[i], c, id) && cores[i].members[c].id == m.id)
  }

  // ---- Steps ----

  lemma StartIsRecorded(k: Core, c: Client, isScreen: bool)
    requires c in k.members
    ensures var m, r := k.members[c], StartVideo(k, c, isScreen);
            && m.channelID in r.activeVideo && r.members == k.members
            && r.activeVideo[m.channelID] == Video(m.channelID, m.id, m.callsign, isScreen)
  {
  }

  /** Client `c` has a video on channel `id`. */
  ghost predicate HasVideo(k: Core, id: int, c: Client) {
    id in k.activeVideo && IsOn(k, c, id) && k.activeVideo[id].senderID == k.members[c].id
  }

  /** The video of client `c` on channel `id` goes on exactly if `c` stays there and does not stop it. */
  ghost predicate GoesOn(k: Core, e: Event, r: Core, id: int, c: Client)
    requires HasVideo(k, id, c)
  {
    && (id in r.activeVideo <==> IsOn(r, c, id) && e != VideoOff(c))
    && (id in r.activeVideo ==>
          r.activeVideo[id] == k.activeVideo[id] && IsOn(r, c, id) && r.members[c].id == k.members[c].id)
  }

  lemma SwitchKeepsOthers(k: Core, e: Event, id: int, c: Client)
    requires Placed(k) && Enabled(k, e) && HasVideo(k, id, c)
    requires e.VideoOff? || (e.VideoOn? && !IsOn(k, e.client, id))
    ensures GoesOn(k, e, Next(k, e), id, c)
  {
  }

  lemma NamesKeepVideo(k: Core, e: Event, id: int, c: Client)
    requires Enabled(k, e) && HasVideo(k, id, c) && e.SetIdentity?
    ensures GoesOn(k, e, Next(k, e), id, c)
  {
  }

  lemma ConnectKeepsVideo(k: Core, e: Event, id: int, c: Client)
    requires Placed(k) && Enabled(k, e) && HasVideo(k, id, c) && e.Connect?
    ensures GoesOn(k, e, Next(k, e), id, c)
  {
  }

  lemma OthersKeepVideo(k: Core, e: Event)
    requires Enabled(k, e) && !IsMove(e) && !e.SetIdentity? && !e.VideoOn? && !e.VideoOff?
    ensures Next(k, e).activeVideo == k.activeVideo && Next(k, e).members == k.members
  {
  }

  lemma DisconnectEndsVideo(k: Core, d: Client, id: int, c: Client)
    requires Placed(k) && d in k.members && HasVideo(k, id, c)
    ensures GoesOn(k, Disconnect(d), Unregister(k, d), id, c)
  {
  }

  lemma SwitchEndsVideo(k: Core, e: Event, d: Client, target: int, password: string, id: int, c: Client)
    requires Placed(k) && d in k.members && HasVideo(k, id, c) && !e.VideoOff?
    ensures GoesOn(k, e, SwitchChannel(k, d, target, password), id, c)
  {
  }

  lemma NoVideoStays(k: Core, e: Event, id: int)
    requires Enabled(k, e) && id !in k.activeVideo && !(e.VideoOn? && IsOn(k, e.client, id))
    ensures id !in Next(k, e).activeVideo
  {
  }

  lemma MoveEndsVideo(k: Core, e: Event, id: int, c: Client, r: Core)
    requires Placed(k) && Enabled(k, e) && r == Next(k, e) && HasVideo(k, id, c) && (e.Join? || e.Create?)
    ensures GoesOn(k, e, r, id, c)
  {
    if e.Join? {
      SwitchEndsVideo(k, e, e.client, e.channelID, e.password, id, c);
    } else if e.name != "" {
      AddChannelKeepsPlacement(k, e.name, e.isPrivate, e.password);
      SwitchEndsVideo(AddChannel(k, e.name, e.isPrivate, e.password), e, e.client, NewChannelID(k), e.password, id, c);
    }
  }

  lemma VideoGoesOn(k: Core, e: Event, id: int, c: Client, r: Core)
    requires Placed(k) && Enabled(k, e) && r == Next(k, e) && HasVideo(k, id, c)
    requires !(e.VideoOn? && IsOn(k, e.client, id))
    ensures GoesOn(k, e, r, id, c)
  {
    if e.Disconnect? {
      DisconnectEndsVideo(k, e.client, id, c);
    } else if e.Join? || e.Create? {
      MoveEndsVideo(k, e, id, c, r);
    } else if e.Connect? {
      ConnectKeepsVideo(k, e, id, c);
    } else if e.SetIdentity? {
      NamesKeepVideo(k, e, id, c);
    } else if e.VideoOn? || e.VideoOff? {
      SwitchKeepsOthers(k, e, id, c);
    } else {
      OthersKeepVideo(k, e);
    }
  }

  // ---- Runs ----

  lemma LatestStartStep(cores: seq<Core>, events: seq<Event>, id: int, i: nat)
    requires i < |events| < |cores|
    ensures LatestStart(cores, events, id, i + 1) ==
            if Starts(cores, events, id, i) then i else LatestStart(cores, events, id, i)
  {
  }

  lemma BroadcastsStep(cores: seq<Core>, events: seq<Event>, id: int, c: Client, g: nat, i: nat)
    requires g < i < |events| < |cores|
    ensures Broadcasts(cores, events, id, c, g, i + 1) <==>
              Broadcasts(cores, events, id, c, g, i) && events[i] != VideoOff(c) && IsOn(cores[i + 1], c, id)
  {
  }

  lemma StartIsTold(cores: seq<Core>, events: seq<Event>, id: int, i: nat)
    requires i < |events| < |cores| && Enabled(cores[i], events[i]) && cores[i + 1] == Next(cores[i], events[i])
    requires Starts(cores, events, id, i)
    ensures VideoTold(cores, events, id, i + 1)
  {
    LatestStartStep(cores, events, id, i);
    StartIsRecorded(cores[i], events[i].client, events[i].isScreen);
  }

  lemma StepKeepsVideoTold(cores: seq<Core>, events: seq<Event>, id: int, i: nat)
    requires i < |events| < |cores| && Placed(cores[i]) && Enabled(cores[i], events[i])
    requires cores[i + 1] == Next(cores[i], events[i]) && !Starts(cores, events, id, i)
    requires VideoTold(cores, events, id, i)
    ensures VideoTold(cores, events, id, i + 1)
  {
    LatestStartStep(cores, events, id, i);
    var g := LatestStart(cores, events, id, i);
    if 0 <= g {
      BroadcastsStep(cores, events, id, events[g].client, g, i);
    }
    if id in cores[i].activeVideo {
      VideoGoesOn(cores[i], events[i], id, events[g].client, cores[i + 1]);
    } else {
      NoVideoStays(cores[i], events[i], id);
    }
  }

  lemma RunStepKeepsVideoTold(cores: seq<Core>, events: seq<Event>, id: int, i: nat)
    requires IsRun(cores, events) && cores[0].channels != map[] && i < |events| && VideoTold(cores, events, id, i)
    ensures VideoTold(cores, events, id, i + 1)
  {
    RunKeepsPlacement(cores, events, i);
    if Starts(cores, events, id, i) {
      StartIsTold(cores, events, id, i);
    } else {
      StepKeepsVideoTold(cores, events, id, i);
    }
  }

  /**
   In every run a channel records a video if and only if some client on it has started one and, since the latest such
   start, has neither stopped it nor left the channel nor disconnected. What is recorded is then that client's
   identifier, the callsign it had at that moment, and whether it said it was a screen.
   */
  lemma EventsTellTheVideo(cores: seq<Core>, events: seq<Event>, id: int, i: nat)
    requires IsRun(cores, events) && cores[0].channels != map[] && i < |cores|
    ensures VideoTold(cores, events, id, i)
  {
    var good := seq(|cores|, j requires 0 <= j < |cores| => VideoTold(cores, events, id, j));
    assert good[0];
    forall j | 0 <= j < |good| - 1 && good[j] ensures good[j + 1] {
      RunStepKeepsVideoTold(cores, events, id, j);
    }
    HubChannels.EveryStateBy(good, i);
  }

  // ---- Newcomers ----

  /** The videos a client is shown. */
  function Shown(frames: seq<Frame>): seq<Video> {
    if frames == [] then []
    else
      var last := frames[|frames| - 1];
      Shown(frames[..|frames| - 1])
      + if last.Json? && last.message.VideoCallStart? then [last.message.video] else []
  }

  lemma {:induction false} ShownAppend(a: seq<Frame>, b: seq<Frame>)
    ensures Shown(a + b) == Shown(a) + Shown(b)
  {
    if b == [] {
      assert a + b == a;
    } else {
      ShownAppend(a, b[..|b| - 1]);
      assert (a + b)[..|a + b| - 1] == a + b[..|b| - 1] && (a + b)[|a + b| - 1] == b[|b| - 1];
    }
  }

  /** No frame shows a video. */
  predicate IsBlind(frames: seq<Frame>) {
    forall j :: 0 <= j < |frames| ==> frames[j].Json? && !frames[j].message.VideoCallStart?
  }

  lemma {:induction false} BlindShowsNothing(frames: seq<Frame>)
    requires IsBlind(frames)
    ensures Shown(frames) == []
  {
    if frames != [] {
      BlindShowsNothing(frames[..|frames| - 1]);
    }
  }

  lemma {:induction false} PublicIsBlind(entries: seq<Entry>, id: int)
    requires forall entry <- entries :: entry.Sent? && !entry.message.VideoCallStart?
    ensures IsBlind(HubOffers.Public(entries, id))
  {
    if entries != [] {
      PublicIsBlind(entries[..|entries| - 1], id);
    }
  }

  /** Step `e` brings client `c` onto the channel it is on in `r`. */
  predicate Enters(k: Core, e: Event, r: Core, c: Client) {
    && c in r.members && (c !in k.members || k.members[c].channelID != r.members[c].channelID)
    && (e.Connect? || e.Join? || e.Create?) && e.client == c
  }

  lemma OneShown(v: Video)
    ensures Shown([Json(VideoCallStart(v))]) == [v]
  {
    assert [Json(VideoCallStart(v))][..0] == [];
  }

  lemma BlindLeadsShowNothing(a: seq<Frame>, b: seq<Frame>, c: seq<Frame>)
    requires IsBlind(a) && IsBlind(b)
    ensures Shown(a + (b + c)) == Shown(c)
  {
    ShownAppend(a, b + c);
    ShownAppend(b, c);
    BlindShowsNothing(a);
    BlindShowsNothing(b);
  }

  lemma HistoryShows(r: Core, id: int, always: bool, lead: seq<Frame>)
    requires IsBlind(lead)
    ensures Shown(lead + HubInbox.HistoryOf(r, id, always)) == if id in r.activeVideo then [r.activeVideo[id]] else []
  {
    var hist := if id in r.chatHistory then r.chatHistory[id] else [];
    var chat := if always || hist != [] then [Json(ChatHistory(id, hist))] else [];
    if id in r.activeVideo {
      OneShown(r.activeVideo[id]);
      BlindLeadsShowNothing(lead, chat, [Json(VideoCallStart(r.activeVideo[id]))]);
    } else {
      BlindLeadsShowNothing(lead, chat, []);
    }
  }

  lemma WelcomeShows(r: Core, c: Client)
    requires c in r.members
    ensures var id := r.members[c].channelID;
            Shown(HubInbox.Welcome(r, c)) == if id in r.activeVideo then [r.activeVideo[id]] else []
  {
    var m := r.members[c];
    HistoryShows(r, m.channelID, false,
      [Json(ClientWelcome(m.id, m.callsign, m.channelID)), Json(ChannelList(GetChannelList(r)))]);
  }

  lemma ArrivalShows(r: Core, c: Client)
    requires c in r.members
    ensures var id := r.members[c].channelID;
            Shown(HubInbox.Arrival(r, c)) == if id in r.activeVideo then [r.activeVideo[id]] else []
  {
    var id := r.members[c].channelID;
    var speaker := HubTiming.SpeakerAt(r, id);
    HistoryShows(r, id, true,
      [Json(FloorStatusChange(id, if speaker == null then Idle else Busy, "", r.CallsignOf(speaker), ""))]);
  }

  lemma EnteringIsBlind(k: Core, e: Event, r: Core, c: Client)
    requires Enabled(k, e) && Enters(k, e, r, c)
    ensures forall entry <- HubNews.News(k, e, r) :: entry.Sent? && !entry.message.VideoCallStart?
  {
  }

  lemma EnteringShows(k: Core, e: Event, r: Core, c: Client)
    requires Enabled(k, e) && Enters(k, e, r, c) && (e.Create? ==> e.name != "")
    ensures var id := r.members[c].channelID;
            Shown(HubInbox.Inbox(k, e, r, c)) == if id in r.activeVideo then [r.activeVideo[id]] else []
  {
    var entries := HubNews.News(k, e, r);
    EnteringIsBlind(k, e, r, c);
    PublicIsBlind(entries, r.members[c].channelID);
    var news := HubOffers.Public(entries, r.members[c].channelID);
    BlindShowsNothing(news);
    if e.Connect? {
      WelcomeShows(r, c);
      ShownAppend(news, HubInbox.Welcome(r, c));
    } else {
      ArrivalShows(r, c);
      ShownAppend(news, HubInbox.Arrival(r, c));
    }
  }

  /**
   In every run a client that connects or enters a channel is shown exactly the video that is on there: the one the
   events tell, of whoever started the latest one and has gone on with it, and none otherwise.
   */
  lemma NewcomersSeeTheVideo(cores: seq<Core>, events: seq<Event>, i: nat, c: Client)
    requires IsRun(cores, events) && cores[0].channels != map[] && i < |events|
    requires Enters(cores[i], events[i], cores[i + 1], c)
    ensures var id := cores[i + 1].members[c].channelID;
            var g := LatestStart(cores, events, id, i + 1);
            var shown := Shown(HubInbox.Inbox(cores[i], events[i], cores[i + 1], c));
            && (g >= 0 ==> events[g].VideoOn? && events[g].client in cores[g].members)
            && if g < 0 || !Broadcasts(cores, events, id, events[g].client, g, i + 1) then shown == []
               else
                 var m := cores[g].members[events[g].client];
                 shown == [Video(id, m.id, m.callsign, events[g].isScreen)]
  {
    RunKeepsPlacement(cores, events, i);
    EnteringShows(cores[i], events[i], cores[i + 1], c);
    EventsTellTheVideo(cores, events, cores[i + 1].members[c].channelID, i + 1);
  }
}
