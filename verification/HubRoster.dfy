/** Who is registered, under what name, and what the channel list says of it, told by the events and by the log. */
module HubRoster {
  import opened Clients
  import opened HubCore
  import opened HubLog
  import opened HubRuns
  import HubChannels
  import HubGrants
  import HubMail
  import HubSystem

  // ---- Names ----

  /** Which events matter for whether a client is registered, for its callsign, and for its role. */
  datatype Matter = Presence | Callsign | Role

  /** An empty callsign discards a whole request for another identity, an empty role keeps the old role. */
  predicate Concerns(e: Event, matter: Matter, c: Client) {
    match e
    case Connect(d, _, _) => c == d
    case Disconnect(d) => c == d && matter.Presence?
    case SetIdentity(d, callsign, role) =>
      c == d && callsign != "" && (matter.Callsign? || (matter.Role? && role != ""))
    case _ => false
  }

  /** The latest of the first `i` events that concerns the matter, or -1. */
  function LatestOn(events: seq<Event>, matter: Matter, c: Client, i: nat): (g: int)
    requires i <= |events|
    ensures -1 <= g < i && (0 <= g ==> Concerns(events[g], matter, c))
  {
    HubGrants.Latest(seq(|events|, n requires 0 <= n < |events| => Concerns(events[n], matter, c)), i)
  }

  /** The callsign and the role that an event gives. */
  function CallsignIn(e: Event): string {
    if e.Connect? then e.profile.callsign else if e.SetIdentity? then e.callsign else ""
  }

  function RoleIn(e: Event): string {
    if e.Connect? then e.profile.role else if e.SetIdentity? then e.role else ""
  }

  /** What the first `i` events tell of client `c`. */
  ghost predicate NameTold(k: Core, events: seq<Event>, c: Client, i: nat)
    requires i <= |events|
  {
    var came := LatestOn(events, Presence, c, i);
    && (c in k.members <==> 0 <= came && events[came].Connect?)
    && (c in k.members ==>
          var m, named, ranked := k.members[c], LatestOn(events, Callsign, c, i), LatestOn(events, Role, c, i);
          && came <= named && came <= ranked
          && m.id == events[came].profile.id && m.callsign == CallsignIn(events[named])
          && m.role == RoleIn(events[ranked]))
  }

  /** One step tells whether `c` is registered, and under what name. */
  ghost predicate NameStep(k: Core, e: Event, c: Client, r: Core) {
    && (c in r.members <==> if Concerns(e, Presence, c) then e.Connect? else c in k.members)
    && (c in r.members ==>
          var m := r.members[c];
          && (Concerns(e, Presence, c) ==> e.Connect? && m.id == e.profile.id)
          && (c in k.members && !Concerns(e, Presence, c) ==> m.id == k.members[c].id)
          && (if Concerns(e, Callsign, c) then m.callsign == CallsignIn(e)
              else c in k.members && m.callsign == k.members[c].callsign)
          && (if Concerns(e, Role, c) then m.role == RoleIn(e) else c in k.members && m.role == k.members[c].role))
  }

  /** Moving to another channel does not rename. */
  lemma SwitchKeepsNames(k: Core, c: Client, id: int, password: string, d: Client)
    requires c in k.members
    ensures var r := SwitchChannel(k, c, id, password);
            && (d in r.members <==> d in k.members)
            && (d in k.members ==> r.members[d] == k.members[d].(channelID := r.members[d].channelID))
  {
  }

  lemma MoveNames(k: Core, e: Event, c: Client, r: Core)
    requires Enabled(k, e) && r == Next(k, e) && (e.Join? || e.Create?)
    ensures NameStep(k, e, c, r)
  {
    if e.Join? {
      SwitchKeepsNames(k, e.client, e.channelID, e.password, c);
    } else if e.name != "" {
      var k1 := AddChannel(k, e.name, e.isPrivate, e.password);
      SwitchKeepsNames(k1, e.client, NewChannelID(k), e.password, c);
    }
  }

  lemma ComingOrGoingNames(k: Core, e: Event, c: Client, r: Core)
    requires Enabled(k, e) && r == Next(k, e) && (e.Connect? || e.Disconnect? || e.SetIdentity?)
    ensures NameStep(k, e, c, r)
  {
  }

  lemma OthersKeepNames(k: Core, e: Event)
    requires Enabled(k, e) && !IsMove(e) && !e.SetIdentity?
    ensures Next(k, e).members == k.members
  {
  }

  lemma EveryStepNames(k: Core, e: Event, c: Client, r: Core)
    requires Enabled(k, e) && r == Next(k, e)
    ensures NameStep(k, e, c, r)
  {
    if e.Join? || e.Create? {
      MoveNames(k, e, c, r);
    } else if e.Connect? || e.Disconnect? || e.SetIdentity? {
      ComingOrGoingNames(k, e, c, r);
    } else {
      OthersKeepNames(k, e);
    }
  }

  lemma LatestOnStep(events: seq<Event>, matter: Matter, c: Client, i: nat)
    requires i < |events|
    ensures LatestOn(events, matter, c, i + 1) ==
            if Concerns(events[i], matter, c) then i else LatestOn(events, matter, c, i)
  {
  }

  lemma StepKeepsNameTold(k: Core, r: Core, events: seq<Event>, c: Client, i: nat)
    requires i < |events| && NameStep(k, events[i], c, r) && NameTold(k, events, c, i)
    ensures NameTold(r, events, c, i + 1)
  {
    LatestOnStep(events, Presence, c, i);
    LatestOnStep(events, Callsign, c, i);
    LatestOnStep(events, Role, c, i);
  }

  lemma RunStepKeepsNameTold(cores: seq<Core>, events: seq<Event>, c: Client, i: nat)
    requires IsRun(cores, events) && i < |events| && NameTold(cores[i], events, c, i)
    ensures NameTold(cores[i + 1], events, c, i + 1)
  {
    EveryStepNames(cores[i], events[i], c, cores[i + 1]);
    StepKeepsNameTold(cores[i], cores[i + 1], events, c, i);
  }

  /**
   In every run the events tell who is registered and as what: a client is registered if and only if it has connected
   and not disconnected since. Its identifier is the one it connected with, its callsign the one it asked for last, and
   its role the last one it asked for together with a callsign, else those it connected with.
   */
  lemma EventsTellNames(cores: seq<Core>, events: seq<Event>, c: Client, i: nat)
    requires IsRun(cores, events) && i < |cores|
    ensures NameTold(cores[i], events, c, i)
  {
    var good := seq(|cores|, j requires 0 <= j < |cores| => NameTold(cores[j], events, c, j));
    forall j | 0 <= j < |good| - 1 && good[j] ensures good[j + 1] {
      RunStepKeepsNameTold(cores, events, c, j);
    }
    HubChannels.EveryStateBy(good, i);
  }

  // ---- Places ----

  /** The channel exists and is open to whoever knows `password`. */
  predicate IsOpen(k: Core, id: int, password: string) {
    id in k.channels && (k.channels[id].definition.isPrivate ==> k.channels[id].definition.password == password)
  }

  /** Where step `e` leaves client `c`. */
  ghost predicate PlaceTold(k: Core, e: Event, c: Client, r: Core)
    requires c in r.members
  {
    var id := r.members[c].channelID;
    if e.Connect? && e.client == c then id == if e.profile.channelID in k.channels then e.profile.channelID else e.pick
    else
      && c in k.members
      && if e.Join? && e.client == c && IsOpen(k, e.channelID, e.password) then id == e.channelID
         else if e.Create? && e.client == c && e.name != "" then r.channels.Keys - k.channels.Keys == {id}
         else id == k.members[c].channelID
  }

  lemma JoinTellsPlace(k: Core, d: Client, target: int, password: string, c: Client)
    requires d in k.members && c in k.members
    ensures PlaceTold(k, Join(d, target, password), c, SwitchChannel(k, d, target, password))
  {
  }

  lemma CreateTellsPlace(k: Core, d: Client, name: string, isPrivate: bool, password: string, c: Client)
    requires Placed(k) && d in k.members && c in k.members
    ensures PlaceTold(k, Create(d, name, isPrivate, password), c, CreateChannel(k, d, name, isPrivate, password))
  {
    if name != "" {
      HubChannels.CreatorEndsOnNewChannel(k, d, name, isPrivate, password);
      JoinTellsPlace(AddChannel(k, name, isPrivate, password), d, NewChannelID(k), password, c);
    }
  }

  lemma ConnectTellsPlace(k: Core, e: Event, c: Client, r: Core)
    requires Placed(k) && Enabled(k, e) && r == Next(k, e) && c in r.members
    requires e.Connect? || e.Disconnect? || e.SetIdentity?
    ensures PlaceTold(k, e, c, r)
  {
  }

  /**
   In every run a client that connects is on the channel of its profile if there is one, and otherwise on one there is;
   it goes to another channel exactly when it asks for an open one or creates one, and then is on that one.
   */
  lemma EventsTellPlaces(cores: seq<Core>, events: seq<Event>, c: Client, i: nat)
    requires IsRun(cores, events) && cores[0].channels != map[] && i < |events| && c in cores[i + 1].members
    ensures PlaceTold(cores[i], events[i], c, cores[i + 1])
    ensures cores[i + 1].members[c].channelID in cores[i + 1].channels
  {
    var k, e := cores[i], events[i];
    RunKeepsPlacement(cores, events, i);
    RunKeepsPlacement(cores, events, i + 1);
    if e.Join? {
      JoinTellsPlace(k, e.client, e.channelID, e.password, c);
    } else if e.Create? {
      CreateTellsPlace(k, e.client, e.name, e.isPrivate, e.password, c);
    } else if e.Connect? || e.Disconnect? || e.SetIdentity? {
      ConnectTellsPlace(k, e, c, cores[i + 1]);
    } else {
      OthersKeepNames(k, e);
    }
  }

  // ---- The channel list ----

  /** The registered clients that are on channel `id`. */
  function Present(k: Core, id: int): set<Client> {
    set c | c in k.members && k.members[c].channelID == id
  }

  /**
   In every run, what GetChannelList says of a channel is what the log and the roster say: it is busy if and only if the
   latest channel_activity said so, the speaker it names is the user of the latest user_talking, under the callsign that
   user has now, and the number of users is that of the registered clients on it.
   */
  lemma ListAgreesWithLog(cores: seq<Core>, mails: seq<HubMail.Mail>, events: seq<Event>, i: nat, n: nat)
    requires HubSystem.IsSystemRun(cores, mails, events) && i < |cores| && n < |GetChannelList(cores[i])|
    ensures var k, seen, info := cores[i], Replay(mails[i].log), GetChannelList(cores[i])[n];
            && info.id in k.channels
            && info.name == k.channels[info.id].definition.name
            && info.isPrivate == k.channels[info.id].definition.isPrivate
            && info.userCount == |Present(k, info.id)|
            && (info.isBusy <==> info.id in seen.busy)
            && (!info.isBusy ==> info.currentSpeaker == "")
            && (info.isBusy ==>
                  && info.id in seen.talker && seen.talker[info.id] in k.byID
                  && var c := k.byID[seen.talker[info.id]];
                     && c in Present(k, info.id) && k.members[c].id == seen.talker[info.id]
                     && info.currentSpeaker == k.members[c].callsign)
  {
    var k, info := cores[i], GetChannelList(cores[i])[n];
    HubSystem.LogTellsTheHub(cores, mails, events, i);
    RunKeepsPlacement(cores, events, i);
    HubChannels.ListIsSortedAndExact(k, |k.channels|);
    assert info in GetChannelList(k);
    assert Present(k, info.id) == k.channels[info.id].floor.subscribers;
  }
}
