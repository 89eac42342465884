/** The hub's steps as one state machine, and what every run keeps about clients, floors and video presence. */
module HubRuns {
  import opened Bytes
  import opened Clients
  import Floor
  import opened HubCore
  import HubMail

  datatype Event =
    | Connect(client: Client, profile: Member, pick: int)
    | Disconnect(client: Client)
    | SetIdentity(client: Client, callsign: string, role: string)
    | Join(client: Client, channelID: int, password: string)
    | Create(client: Client, name: string, isPrivate: bool, password: string)
    | Press(client: Client, now: nat, writeOk: bool)
    | LetGo(client: Client, now: nat, writeOk: bool)
    | FireTimer(channelID: int, timer: nat)
    | Expire(channelID: int, timer: nat, now: nat, writeOk: bool)
    | Packet(client: Client, data: seq<byte>)
    | GatewayPacket(channelID: int, data: seq<byte>)
    | Say(client: Client, text: string, fileURL: string)
    | VideoOn(client: Client, isScreen: bool)
    | VideoOff(client: Client)

  /**
   Signals come from registered clients, a new connection has a new identifier, and a callback runs after its timer
   fired.
   */
  predicate Enabled(k: Core, e: Event) {
    match e
    case Connect(c, m, pick) => c !in k.members && m.id !in k.byID && (pick in k.channels || k.channels == map[])
    case FireTimer(id, t) =>
      id in k.channels && t < |k.channels[id].floor.timers| && k.channels[id].floor.timers[t].status.Armed?
    case Expire(id, t, _, _) =>
      id in k.channels && t < |k.channels[id].floor.timers| && k.channels[id].floor.timers[t].status.InFlight?
    case GatewayPacket(_, _) => true
    case _ => e.client in k.members
  }

  function Next(k: Core, e: Event): Core
    requires Enabled(k, e)
  {
    match e
    case Connect(c, m, pick) => Register(k, c, m, pick)
    case Disconnect(c) => Unregister(k, c)
    case SetIdentity(c, callsign, role) => Identify(k, c, callsign, role)
    case Join(c, id, password) => SwitchChannel(k, c, id, password)
    case Create(c, name, isPrivate, password) => CreateChannel(k, c, name, isPrivate, password)
    case Press(c, now, ok) => PTTDown(k, c, now, ok)
    case LetGo(c, now, ok) => PTTUp(k, c, now, ok)
    case FireTimer(id, t) => k.WithFloor(id, k.channels[id].floor.Fired(t))
    case Expire(id, t, now, ok) => TimeOut(k, id, t, now, ok)
    case Packet(c, data) => BinaryAudio(k, c, data)
    case GatewayPacket(id, data) => k
    case Say(c, text, fileURL) => PostChat(k, c, text, fileURL)
    case VideoOn(c, isScreen) => StartVideo(k, c, isScreen)
    case VideoOff(c) => StopVideo(k, c)
  }

  /** NewHub with the configured channels. */
  ghost predicate IsNewHub(k: Core) {
    && (forall id <- k.channels ::
          k.channels[id].definition.id == id && k.channels[id].floor == Floor.NewFloor(k.totDuration))
    && k.members == map[] && k.byID == map[] && k.chatHistory == map[] && k.activeVideo == map[]
    && k.recorder.activeTX == map[] && k.recorder.recordings == [] && k.recorder.files == map[]
       && k.recorder.maxHistory > 0
  }

  ghost predicate IsRun(cores: seq<Core>, events: seq<Event>) {
    && |cores| == |events| + 1
    && IsNewHub(cores[0])
    && forall i {:trigger events[i]} :: 0 <= i < |events| ==>
       Enabled(cores[i], events[i]) && cores[i + 1] == Next(cores[i], events[i])
  }

  // ---- Placement ----

  ghost predicate FloorOk(f: Floor.FloorState) {
    && (f.isBusy <==> f.speaker != null)
    && (f.speaker != null ==> f.speaker in f.subscribers)
  }

  ghost predicate ChannelsOk(k: Core) {
    && k.channels != map[]
    && forall id <- k.channels :: k.channels[id].definition.id == id && FloorOk(k.channels[id].floor)
  }

  /** Subscription and CurrentChannelID say the same of every client. */
  ghost predicate MembersPlaced(k: Core) {
    && (forall c <- k.members ::
          k.members[c].channelID in k.channels && c in k.channels[k.members[c].channelID].floor.subscribers)
    && (forall id <- k.channels, c <- k.channels[id].floor.subscribers ::
          c in k.members && k.members[c].channelID == id)
  }

  /** clientsByID indexes exactly the registered clients. */
  ghost predicate IndexOk(k: Core) {
    && (forall c <- k.members :: k.members[c].id in k.byID && k.byID[k.members[c].id] == c)
    && (forall u <- k.byID :: k.byID[u] in k.members && k.members[k.byID[u]].id == u)
  }

  /** A recorded video's sender is registered and on that channel. */
  ghost predicate VideoOk(k: Core) {
    forall id <- k.activeVideo ::
      var u := k.activeVideo[id].senderID;
      id in k.channels && u in k.byID && k.byID[u] in k.members && k.members[k.byID[u]].channelID == id
  }

  ghost predicate Placed(k: Core) {
    ChannelsOk(k) && MembersPlaced(k) && IndexOk(k) && VideoOk(k)
  }

  // How one floor changes.

  lemma RequestKeepsFloorOk(f: Floor.FloorState, c: Client, rank: int, holderRank: int, now: nat)
    requires FloorOk(f) && c in f.subscribers
    ensures var g := f.Requested(c, rank, holderRank, now).0; FloorOk(g) && g.subscribers == f.subscribers
  {
  }

  lemma ReleaseKeepsFloorOk(f: Floor.FloorState, c: Client)
    requires FloorOk(f)
    ensures var g := f.Released(c).0; FloorOk(g) && g.subscribers == f.subscribers
    ensures var g := f.WithoutSubscriber(c).0; FloorOk(g) && g.subscribers == f.subscribers - {c}
  {
  }

  /** One floor changes, its subscribers do not. */
  lemma FloorChangeKeepsPlacement(k: Core, r: Core, id: int, f: Floor.FloorState)
    requires Placed(k) && id in k.channels && FloorOk(f) && f.subscribers == k.channels[id].floor.subscribers
    requires r.channels == k.WithFloor(id, f).channels
    requires r.members == k.members && r.byID == k.byID && r.activeVideo == k.activeVideo
    ensures Placed(r)
  {
  }

  lemma PressKeepsPlacement(k: Core, c: Client, now: nat, writeOk: bool)
    requires Placed(k) && c in k.members
    ensures Placed(PTTDown(k, c, now, writeOk))
  {
    var f := k.channels[k.members[c].channelID].floor;
    RequestKeepsFloorOk(f, c, k.RankOf(c), k.RankOf(f.speaker), now);
    FloorChangeKeepsPlacement(k, PTTDown(k, c, now, writeOk), k.members[c].channelID, k.Requested(c, now).0);
  }

  lemma LetGoKeepsPlacement(k: Core, c: Client, now: nat, writeOk: bool)
    requires Placed(k) && c in k.members
    ensures Placed(PTTUp(k, c, now, writeOk))
  {
    var id := k.members[c].channelID;
    ReleaseKeepsFloorOk(k.channels[id].floor, c);
    if k.channels[id].floor.Released(c).1 {
      FloorChangeKeepsPlacement(k, PTTUp(k, c, now, writeOk), id, k.channels[id].floor.Released(c).0);
    }
  }

  lemma ExpireKeepsPlacement(k: Core, id: int, t: nat, now: nat, writeOk: bool)
    requires Placed(k) && id in k.channels && t < |k.channels[id].floor.timers|
    ensures Placed(TimeOut(k, id, t, now, writeOk))
  {
    FloorChangeKeepsPlacement(k, TimeOut(k, id, t, now, writeOk), id, k.channels[id].floor.TimedOut(t));
  }

  lemma FireKeepsPlacement(k: Core, id: int, t: nat)
    requires Placed(k) && id in k.channels && t < |k.channels[id].floor.timers|
    ensures Placed(k.WithFloor(id, k.channels[id].floor.Fired(t)))
  {
  }

  // How clients come, go and move.

  lemma RegisterKeepsPlacement(k: Core, c: Client, m: Member, pick: int)
    requires Placed(k) && c !in k.members && m.id !in k.byID && pick in k.channels
    ensures Placed(Register(k, c, m, pick))
  {
  }

  /** `c` has left its channel but is still registered. */
  ghost predicate PlacedBut(k: Core, c: Client) {
    && ChannelsOk(k) && IndexOk(k) && c in k.members
    && (forall d <- k.members :: d != c ==>
          k.members[d].channelID in k.channels && d in k.channels[k.members[d].channelID].floor.subscribers)
    && (forall id <- k.channels, d <- k.channels[id].floor.subscribers ::
          d in k.members && d != c && k.members[d].channelID == id)
    && VideoButOf(k, c)
  }

  ghost predicate VideoButOf(k: Core, c: Client)
    requires IndexOk(k)
  {
    forall id <- k.activeVideo ::
      var u := k.activeVideo[id].senderID;
      id in k.channels && u in k.byID && k.byID[u] != c && k.members[k.byID[u]].channelID == id
  }

  lemma LeavingEndsVideo(k: Core, r: Core, c: Client)
    requires Placed(k) && c in k.members
    requires var m := k.members[c];
             && r.channels.Keys == k.channels.Keys && r.members == k.members && r.byID == k.byID
             && r.activeVideo == k.WithoutVideoOf(m.channelID, m.id).activeVideo
    ensures IndexOk(r) && VideoButOf(r, c)
  {
  }

  lemma LeavingIsPlacedBut(k: Core, r: Core, c: Client, f: Floor.FloorState)
    requires Placed(k) && c in k.members
    requires var m := k.members[c];
             && FloorOk(f) && f.subscribers == k.channels[m.channelID].floor.subscribers - {c}
             && r.channels == k.WithFloor(m.channelID, f).channels && r.members == k.members && r.byID == k.byID
             && r.activeVideo == k.WithoutVideoOf(m.channelID, m.id).activeVideo
    ensures PlacedBut(r, c)
  {
    LeavingEndsVideo(k, r, c);
  }

  lemma LeaveIsPlacedBut(k: Core, c: Client)
    requires Placed(k) && c in k.members
    ensures PlacedBut(Leave(k, c), c)
  {
    var f := k.channels[k.members[c].channelID].floor;
    ReleaseKeepsFloorOk(f, c);
    LeavingIsPlacedBut(k, Leave(k, c), c, f.WithoutSubscriber(c).0);
  }

  lemma DroppingKeepsPlacement(k: Core, c: Client)
    requires PlacedBut(k, c)
    ensures Placed(k.(members := k.members - {c}, byID := k.byID - {k.members[c].id}))
  {
  }

  lemma ArrivingKeepsPlacement(k: Core, c: Client, id: int)
    requires PlacedBut(k, c) && id in k.channels
    ensures Placed(Arrive(k, c, id))
  {
  }

  lemma UnregisterKeepsPlacement(k: Core, c: Client)
    requires Placed(k) && c in k.members
    ensures Placed(Unregister(k, c))
  {
    LeaveIsPlacedBut(k, c);
    DroppingKeepsPlacement(Leave(k, c), c);
    var r := Leave(k, c);
    assert Unregister(k, c) == r.(members := r.members - {c}, byID := r.byID - {r.members[c].id});
  }

  lemma SwitchKeepsPlacement(k: Core, c: Client, id: int, password: string)
    requires Placed(k) && c in k.members
    ensures Placed(SwitchChannel(k, c, id, password))
  {
    if JudgeSwitch(k, c, id, password).Enter? {
      LeaveIsPlacedBut(k, c);
      ArrivingKeepsPlacement(Leave(k, c), c, id);
    }
  }

  lemma AddChannelKeepsPlacement(k: Core, name: string, isPrivate: bool, password: string)
    requires Placed(k)
    ensures Placed(AddChannel(k, name, isPrivate, password))
  {
  }

  lemma CreateKeepsPlacement(k: Core, c: Client, name: string, isPrivate: bool, password: string)
    requires Placed(k) && c in k.members
    ensures Placed(CreateChannel(k, c, name, isPrivate, password))
  {
    AddChannelKeepsPlacement(k, name, isPrivate, password);
    SwitchKeepsPlacement(AddChannel(k, name, isPrivate, password), c, NewChannelID(k), password);
  }

  lemma IdentifyKeepsPlacement(k: Core, c: Client, callsign: string, role: string)
    requires Placed(k) && c in k.members
    ensures Placed(Identify(k, c, callsign, role))
  {
  }

  lemma StartVideoKeepsPlacement(k: Core, c: Client, isScreen: bool)
    requires Placed(k) && c in k.members
    ensures Placed(StartVideo(k, c, isScreen))
  {
  }

  lemma StopVideoKeepsPlacement(k: Core, c: Client)
    requires Placed(k) && c in k.members
    ensures Placed(StopVideo(k, c))
  {
  }

  /** Recordings and chat do not matter for placement. */
  lemma AsidesKeepPlacement(k: Core, r: Core)
    requires Placed(k) && r == k.(recorder := r.recorder, chatHistory := r.chatHistory)
    ensures Placed(r)
  {
  }

  predicate IsFloorEvent(e: Event) {
    e.Press? || e.LetGo? || e.FireTimer? || e.Expire?
  }

  predicate IsMove(e: Event) {
    e.Connect? || e.Disconnect? || e.Join? || e.Create?
  }

  lemma ButtonKeepsPlacement(k: Core, e: Event)
    requires Placed(k) && Enabled(k, e) && (e.Press? || e.LetGo?)
    ensures Placed(Next(k, e))
  {
    match e
    case Press(c, now, ok) => PressKeepsPlacement(k, c, now, ok);
    case LetGo(c, now, ok) => LetGoKeepsPlacement(k, c, now, ok);
  }

  lemma TimerKeepsPlacement(k: Core, e: Event)
    requires Placed(k) && Enabled(k, e) && (e.FireTimer? || e.Expire?)
    ensures Placed(Next(k, e))
  {
    match e
    case FireTimer(id, t) => FireKeepsPlacement(k, id, t);
    case Expire(id, t, now, ok) => ExpireKeepsPlacement(k, id, t, now, ok);
  }

  lemma ComingOrGoingKeepsPlacement(k: Core, e: Event)
    requires Placed(k) && Enabled(k, e) && (e.Connect? || e.Disconnect?)
    ensures Placed(Next(k, e))
  {
    match e
    case Connect(c, m, pick) => RegisterKeepsPlacement(k, c, m, pick);
    case Disconnect(c) => UnregisterKeepsPlacement(k, c);
  }

  lemma SwitchingKeepsPlacement(k: Core, e: Event)
    requires Placed(k) && Enabled(k, e) && (e.Join? || e.Create?)
    ensures Placed(Next(k, e))
  {
    match e
    case Join(c, id, password) => SwitchKeepsPlacement(k, c, id, password);
    case Create(c, name, isPrivate, password) => CreateKeepsPlacement(k, c, name, isPrivate, password);
  }

  lemma OtherEventKeepsPlacement(k: Core, e: Event)
    requires Placed(k) && Enabled(k, e) && !IsFloorEvent(e) && !IsMove(e)
    ensures Placed(Next(k, e))
  {
    match e
    case SetIdentity(c, callsign, role) => IdentifyKeepsPlacement(k, c, callsign, role);
    case VideoOn(c, isScreen) => StartVideoKeepsPlacement(k, c, isScreen);
    case VideoOff(c) => StopVideoKeepsPlacement(k, c);
    case Packet(c, data) => AsidesKeepPlacement(k, BinaryAudio(k, c, data));
    case GatewayPacket(_, _) =>
    case Say(c, text, fileURL) => AsidesKeepPlacement(k, PostChat(k, c, text, fileURL));
  }

  lemma StepKeepsPlacement(k: Core, e: Event)
    requires Placed(k) && Enabled(k, e)
    ensures Placed(Next(k, e))
  {
    if e.Press? || e.LetGo? {
      ButtonKeepsPlacement(k, e);
    } else if e.FireTimer? || e.Expire? {
      TimerKeepsPlacement(k, e);
    } else if e.Connect? || e.Disconnect? {
      ComingOrGoingKeepsPlacement(k, e);
    } else if e.Join? || e.Create? {
      SwitchingKeepsPlacement(k, e);
    } else {
      OtherEventKeepsPlacement(k, e);
    }
  }

  lemma NewHubIsPlaced(k: Core)
    requires IsNewHub(k) && k.channels != map[]
    ensures Placed(k)
  {
  }

  /** The placement invariant holds in every reachable state of a hub configured with at least one channel. */
  lemma {:induction false} RunKeepsPlacement(cores: seq<Core>, events: seq<Event>, i: nat)
    requires IsRun(cores, events) && cores[0].channels != map[] && i < |cores|
    ensures Placed(cores[i])
  {
    if i == 0 {
      NewHubIsPlaced(cores[0]);
    } else {
      RunKeepsPlacement(cores, events, i - 1);
      StepKeepsPlacement(cores[i - 1], events[i - 1]);
    }
  }

  /** Every client whose channel exists subscribes to it. */
  ghost predicate SubscribedAtHome(k: Core) {
    forall c <- k.members :: k.members[c].channelID in k.channels ==>
      c in k.channels[k.members[c].channelID].floor.subscribers
  }

  /**
   Without a configured channel even that is lost as soon as the first channel is created: the newcomer already counts
   as being on channel 1, so the switch that should subscribe it returns early.
   */
  lemma EmptyHubLosesPlacement(k: Core, c: Client, m: Member) returns (cores: seq<Core>, events: seq<Event>)
    requires IsNewHub(k) && k.channels == map[] && m.channelID == 1
    ensures IsRun(cores, events) && |cores| == 3 && cores[0] == k && !SubscribedAtHome(cores[2])
  {
    var e1, e2 := Connect(c, m, 1), Create(c, "A", false, "");
    var k1 := Next(k, e1);
    assert k1.channels == map[];
    assert NewChannelID(k1) == 1;
    var k2 := Next(k1, e2);
    assert c in k2.members && k2.members[c].channelID == 1;
    assert 1 in k2.channels && c !in k2.channels[1].floor.subscribers;
    cores, events := [k, k1, k2], [e1, e2];
  }

  /** Clients stay subscribed where they are in all runs from a new hub exactly if it is configured with a channel. */
  lemma SubscriptionHoldsIffConfigured(k: Core, c: Client, m: Member)
    requires IsNewHub(k) && m.channelID == 1
    ensures k.channels != map[] <==>
              forall cores, events, i :: IsRun(cores, events) && cores[0] == k && 0 <= i < |cores| ==>
                SubscribedAtHome(cores[i])
  {
    if k.channels != map[] {
      forall cores, events, i | IsRun(cores, events) && cores[0] == k && 0 <= i < |cores|
        ensures SubscribedAtHome(cores[i])
      {
        RunKeepsPlacement(cores, events, i);
      }
    } else {
      var cores, events := EmptyHubLosesPlacement(k, c, m);
      assert IsRun(cores, events) && cores[0] == k && !SubscribedAtHome(cores[2]);
    }
  }

  /**
   What placement means for one client: a registered client subscribes to exactly one channel and holds at most that
   channel's floor; any other client subscribes to none, holds none and is not found by identifier.
   */
  lemma PlacementOfClient(k: Core, c: Client)
    requires Placed(k)
    ensures HubMail.Subscriptions(k, c) == if c in k.members then {k.members[c].channelID} else {}
    ensures forall id <- k.channels :: k.channels[id].floor.speaker == c ==>
            c in k.members && k.members[c].channelID == id
    ensures forall id, other {:trigger k.channels[id].floor, k.channels[other].floor} ::
              (id in k.channels && other in k.channels
               && k.channels[id].floor.speaker == c && k.channels[other].floor.speaker == c) ==> id == other
    ensures c !in k.members ==> c !in k.byID.Values
  {
    var expected := if c in k.members then {k.members[c].channelID} else {};
    forall id ensures id in HubMail.Subscriptions(k, c) <==> id in expected {
    }
  }

  /** In every run, video presence always names a registered client on that very channel. */
  lemma VideoNeverDangles(cores: seq<Core>, events: seq<Event>, i: nat, id: int)
    requires IsRun(cores, events) && cores[0].channels != map[] && i < |cores| && id in cores[i].activeVideo
    ensures var k := cores[i];
            var u := k.activeVideo[id].senderID;
            && u in k.byID && k.byID[u] in k.members
            && k.members[k.byID[u]].id == u && k.members[k.byID[u]].channelID == id
            && id in k.channels && k.byID[u] in k.channels[id].floor.subscribers
  {
    RunKeepsPlacement(cores, events, i);
  }
}
