/**
 The time-out bound for the whole hub: every handler takes at most one lock section of each channel, so what Timing
 proves about one channel's interleavings holds for each channel in every timed run of the hub.
 */
module HubTiming {
  import opened Wrappers
  import opened Clients
  import opened Floor
  import opened HubCore
  import opened HubRuns
  import HubChannels
  import Timing

  /** The lock section that event `e` takes on channel `id`. */
  function SectionOf(k: Core, e: Event, id: int): Option<Timing.Step>
    requires Enabled(k, e)
  {
    match e
    case Connect(c, m, pick) => if Home(k, m, pick) == id then Some(Timing.Subscribe(c)) else None
    case Disconnect(c) => if k.members[c].channelID == id then Some(Timing.Unsubscribe(c)) else None
    case Join(c, target, password) => SwitchSection(k, c, target, password, id)
    case Create(c, name, isPrivate, password) =>
      if name == "" then None
      else SwitchSection(AddChannel(k, name, isPrivate, password), c, NewChannelID(k), password, id)
    case Press(c, _, _) =>
      if k.members[c].channelID == id && id in k.channels
      then Some(Timing.Request(c, k.RankOf(c), k.RankOf(k.channels[id].floor.speaker))) else None
    case LetGo(c, _, _) => if k.members[c].channelID == id then Some(Timing.Release(c)) else None
    case FireTimer(ch, t) => if ch == id then Some(Timing.Fire(t)) else None
    case Expire(ch, t, _, _) => if ch == id then Some(Timing.Callback(t)) else None
    case _ => None
  }

  function SwitchSection(k: Core, c: Client, target: int, password: string, id: int): Option<Timing.Step>
    requires c in k.members
  {
    if !JudgeSwitch(k, c, target, password).Enter? then None
    else if id == target then Some(Timing.Subscribe(c))
    else if id == k.members[c].channelID then Some(Timing.Unsubscribe(c))
    else None
  }

  /** The clock readings of an event are `now`, and a timer fires no earlier than its deadline. */
  predicate OnTime(k: Core, e: Event, now: nat)
    requires Enabled(k, e)
  {
    match e
    case Press(_, t, _) => t == now
    case LetGo(_, t, _) => t == now
    case Expire(_, _, t, _) => t == now
    case FireTimer(id, t) => k.channels[id].floor.timers[t].deadline <= now
    case _ => true
  }

  function Moved(f: FloorState, section: Option<Timing.Step>, now: nat, latency: nat): (g: FloorState)
    requires section.Some? ==> Timing.Enabled(Timing.Sys(now, f), section.value, latency)
    ensures g.totDuration == f.totDuration
  {
    if section.None? then f else Timing.Next(Timing.Sys(now, f), section.value, latency).floor
  }

  lemma SwitchIsOneSection(k: Core, c: Client, target: int, password: string, id: int, now: nat, latency: nat)
    requires c in k.members && id in k.channels
    ensures var r := SwitchChannel(k, c, target, password);
            && id in r.channels
            && r.channels[id].floor ==
               Moved(k.channels[id].floor, SwitchSection(k, c, target, password, id), now, latency)
  {
  }

  predicate TakesSection(k: Core, e: Event, id: int, now: nat, latency: nat)
    requires Enabled(k, e) && id in k.channels
  {
    var section := SectionOf(k, e, id);
    && (section.Some? ==> Timing.Enabled(Timing.Sys(now, k.channels[id].floor), section.value, latency))
    && id in Next(k, e).channels && Next(k, e).channels[id].floor == Moved(k.channels[id].floor, section, now, latency)
  }

  lemma ComingOrGoingIsOneSection(k: Core, e: Event, id: int, now: nat, latency: nat)
    requires Enabled(k, e) && (e.Connect? || e.Disconnect?) && id in k.channels
    ensures TakesSection(k, e, id, now, latency)
  {
  }

  lemma SwitchingIsOneSection(k: Core, e: Event, id: int, now: nat, latency: nat)
    requires Enabled(k, e) && (e.Join? || e.Create?) && id in k.channels
    ensures TakesSection(k, e, id, now, latency)
  {
    match e
    case Join(c, target, password) => SwitchIsOneSection(k, c, target, password, id, now, latency);
    case Create(c, name, isPrivate, password) =>
      if name != "" {
        SwitchIsOneSection(AddChannel(k, name, isPrivate, password), c, NewChannelID(k), password, id, now, latency);
      }
  }

  lemma PressIsOneSection(k: Core, c: Client, id: int, now: nat, writeOk: bool)
    requires c in k.members && id in k.channels
    ensures PTTDown(k, c, now, writeOk).channels[id].floor ==
              if k.members[c].channelID == id then k.Requested(c, now).0 else k.channels[id].floor
  {
  }

  lemma LetGoIsOneSection(k: Core, c: Client, id: int, now: nat, writeOk: bool)
    requires c in k.members && id in k.channels
    ensures PTTUp(k, c, now, writeOk).channels[id].floor ==
              if k.members[c].channelID == id then k.channels[id].floor.Released(c).0 else k.channels[id].floor
  {
  }

  lemma TimeOutIsOneSection(k: Core, ch: int, t: nat, id: int, now: nat, writeOk: bool)
    requires ch in k.channels && t < |k.channels[ch].floor.timers| && id in k.channels
    ensures TimeOut(k, ch, t, now, writeOk).channels[id].floor ==
              if ch == id then k.channels[id].floor.TimedOut(t) else k.channels[id].floor
  {
  }

  lemma FloorEventIsOneSection(k: Core, e: Event, id: int, now: nat, latency: nat)
    requires Enabled(k, e) && IsFloorEvent(e) && OnTime(k, e, now) && id in k.channels
    ensures TakesSection(k, e, id, now, latency)
  {
    if e.Press? {
      PressIsOneSection(k, e.client, id, now, e.writeOk);
    } else if e.LetGo? {
      LetGoIsOneSection(k, e.client, id, now, e.writeOk);
    } else if e.Expire? {
      TimeOutIsOneSection(k, e.channelID, e.timer, id, now, e.writeOk);
    }
  }

  lemma OtherEventIsNoSection(k: Core, e: Event, id: int, now: nat, latency: nat)
    requires Enabled(k, e) && !IsFloorEvent(e) && !IsMove(e) && id in k.channels
    ensures TakesSection(k, e, id, now, latency)
  {
  }

  /** Every event moves the floor of every channel by its one lock section, or not at all. */
  lemma EventIsOneSection(k: Core, e: Event, id: int, now: nat, latency: nat)
    requires Enabled(k, e) && OnTime(k, e, now) && id in k.channels
    ensures TakesSection(k, e, id, now, latency)
  {
    if IsFloorEvent(e) {
      FloorEventIsOneSection(k, e, id, now, latency);
    } else if e.Join? || e.Create? {
      SwitchingIsOneSection(k, e, id, now, latency);
    } else if e.Connect? || e.Disconnect? {
      ComingOrGoingIsOneSection(k, e, id, now, latency);
    } else {
      OtherEventIsNoSection(k, e, id, now, latency);
    }
  }

  // ---- Timed runs ----

  predicate WithinLatency(f: FloorState, now: nat, latency: nat) {
    forall t :: 0 <= t < |f.timers| && f.timers[t].IsLive() ==> now <= f.timers[t].deadline + latency
  }

  /**
   Event `e` happens at `now` and time passes until `later`; no fired timer waits beyond its deadline plus `latency`.
   */
  ghost predicate Passes(k: Core, e: Event, now: nat, later: nat, latency: nat) {
    && Enabled(k, e) && OnTime(k, e, now) && now <= later
    && forall id <- Next(k, e).channels :: WithinLatency(Next(k, e).channels[id].floor, later, latency)
  }

  ghost predicate IsTimedRun(cores: seq<Core>, events: seq<Event>, clock: seq<nat>, latency: nat) {
    && IsRun(cores, events) && |clock| == |cores|
    && forall i {:trigger events[i]} :: 0 <= i < |events| ==>
       Passes(cores[i], events[i], clock[i], clock[i + 1], latency)
  }

  ghost predicate FloorsTimed(k: Core, now: nat, latency: nat) {
    forall id <- k.channels :: Timing.Inv(Timing.Sys(now, k.channels[id].floor), latency)
  }

  predicate IsUnused(f: FloorState) {
    !f.isBusy && f.speaker == null && f.totTimer.None? && f.timers == []
  }

  lemma CreationLeavesUnused(k: Core, c: Client, name: string, isPrivate: bool, password: string, id: int)
    requires c in k.members && id !in k.channels && id in CreateChannel(k, c, name, isPrivate, password).channels
    ensures IsUnused(CreateChannel(k, c, name, isPrivate, password).channels[id].floor)
  {
    var k1 := AddChannel(k, name, isPrivate, password);
    assert id in k1.channels && k1.channels[id].floor == NewFloor(k.totDuration);
    SwitchIsOneSection(k1, c, NewChannelID(k), password, id, 0, 0);
  }

  /** A channel that an event creates starts with nobody speaking and no timer. */
  lemma CreatedChannelIsUnused(k: Core, e: Event, id: int)
    requires Enabled(k, e) && id !in k.channels && id in Next(k, e).channels
    ensures IsUnused(Next(k, e).channels[id].floor)
  {
    if e.Create? {
      CreationLeavesUnused(k, e.client, e.name, e.isPrivate, e.password, id);
    } else {
      HubChannels.OnlyCreateAddsChannels(k, e);
    }
  }

  lemma SectionKeepsInv(f: FloorState, section: Option<Timing.Step>, now: nat, later: nat, latency: nat)
    requires section.Some? ==> Timing.Enabled(Timing.Sys(now, f), section.value, latency)
    requires Timing.Inv(Timing.Sys(now, f), latency) && now <= later
    requires WithinLatency(Moved(f, section, now, latency), later, latency)
    ensures Timing.Inv(Timing.Sys(later, Moved(f, section, now, latency)), latency)
  {
    if section.Some? {
      Timing.StepKeepsInv(Timing.Sys(now, f), section.value, latency);
    }
    Timing.StepKeepsInv(Timing.Sys(now, Moved(f, section, now, latency)), Timing.Elapse(later - now), latency);
  }

  lemma EventKeepsFloorsTimed(k: Core, e: Event, now: nat, later: nat, latency: nat)
    requires Passes(k, e, now, later, latency) && FloorsTimed(k, now, latency)
    ensures FloorsTimed(Next(k, e), later, latency)
  {
    forall id | id in Next(k, e).channels
      ensures Timing.Inv(Timing.Sys(later, Next(k, e).channels[id].floor), latency)
    {
      if id in k.channels {
        EventIsOneSection(k, e, id, now, latency);
        SectionKeepsInv(k.channels[id].floor, SectionOf(k, e, id), now, later, latency);
      } else {
        CreatedChannelIsUnused(k, e, id);
      }
    }
  }

  /** In every timed run each busy channel with a time-out has a live timer of its speaker's. */
  lemma {:induction false} RunKeepsFloorsTimed(cores: seq<Core>, events: seq<Event>, clock: seq<nat>, latency: nat,
                                               i: nat)
    requires IsTimedRun(cores, events, clock, latency) && i < |cores|
    ensures FloorsTimed(cores[i], clock[i], latency)
  {
    if i > 0 {
      RunKeepsFloorsTimed(cores, events, clock, latency, i - 1);
      assert Passes(cores[i - 1], events[i - 1], clock[i - 1], clock[i - 1 + 1], latency);
      EventKeepsFloorsTimed(cores[i - 1], events[i - 1], clock[i - 1], clock[i], latency);
    }
  }

  /** Client `c` speaks on channel `id` in states i to j, and did not before event i - 1. */
  ghost predicate SpeaksFrom(cores: seq<Core>, id: int, c: Client, i: nat, j: nat) {
    && 0 < i <= j < |cores|
    && (id in cores[i - 1].channels ==> cores[i - 1].channels[id].floor.speaker != c)
    && forall k :: i <= k <= j ==> id in cores[k].channels && cores[k].channels[id].floor.speaker == c
  }

  /** The floor's current timer is live, was armed at `t` and has `tot` to run from there. */
  ghost predicate ArmedAt(f: FloorState, t: nat, tot: int) {
    && f.totDuration == tot && f.totTimer.Some? && f.totTimer.value < |f.timers|
    && f.timers[f.totTimer.value].IsLive() && f.timers[f.totTimer.value].armedAt == t
  }

  lemma ArmedMeansInTime(f: FloorState, t: nat, tot: int, now: nat, latency: nat)
    requires ArmedAt(f, t, tot) && Timing.Inv(Timing.Sys(now, f), latency)
    ensures now <= t + tot + latency
  {
  }

  lemma AcquiredAt(k: Core, e: Event, id: int, c: Client, now: nat, latency: nat)
    requires Enabled(k, e) && OnTime(k, e, now) && FloorsTimed(k, now, latency)
    requires id in Next(k, e).channels && Next(k, e).channels[id].floor.speaker == c
    requires Next(k, e).channels[id].floor.totDuration > 0
    requires id in k.channels ==> k.channels[id].floor.speaker != c
    ensures ArmedAt(Next(k, e).channels[id].floor, now, Next(k, e).channels[id].floor.totDuration)
  {
    if id in k.channels {
      EventIsOneSection(k, e, id, now, latency);
      Timing.AcquisitionArmsTimer(Timing.Sys(now, k.channels[id].floor), SectionOf(k, e, id).value, latency);
      Timing.StepKeepsInv(Timing.Sys(now, k.channels[id].floor), SectionOf(k, e, id).value, latency);
    } else {
      CreatedChannelIsUnused(k, e, id);
    }
  }

  lemma StaysArmed(k: Core, e: Event, id: int, c: Client, now: nat, latency: nat, t: nat, tot: int)
    requires Enabled(k, e) && OnTime(k, e, now) && FloorsTimed(k, now, latency) && tot > 0
    requires id in k.channels && k.channels[id].floor.speaker == c && ArmedAt(k.channels[id].floor, t, tot)
    requires id in Next(k, e).channels && Next(k, e).channels[id].floor.speaker == c
    ensures ArmedAt(Next(k, e).channels[id].floor, t, tot)
  {
    EventIsOneSection(k, e, id, now, latency);
    var section := SectionOf(k, e, id);
    if section.Some? {
      Timing.SameSpeakerSameTimer(Timing.Sys(now, k.channels[id].floor), section.value, latency);
      Timing.StepKeepsInv(Timing.Sys(now, k.channels[id].floor), section.value, latency);
    }
  }

  lemma RunStaysArmed(cores: seq<Core>, events: seq<Event>, clock: seq<nat>, latency: nat, id: int, c: Client, k: nat,
                      t: nat, tot: int)
    requires IsTimedRun(cores, events, clock, latency) && k < |events| && tot > 0
    requires id in cores[k].channels && cores[k].channels[id].floor.speaker == c
    requires ArmedAt(cores[k].channels[id].floor, t, tot)
    requires id in cores[k + 1].channels && cores[k + 1].channels[id].floor.speaker == c
    ensures ArmedAt(cores[k + 1].channels[id].floor, t, tot)
  {
    RunKeepsFloorsTimed(cores, events, clock, latency, k);
    assert Passes(cores[k], events[k], clock[k], clock[k + 1], latency) && cores[k + 1] == Next(cores[k], events[k]);
    StaysArmed(cores[k], events[k], id, c, clock[k], latency, t, tot);
  }

  lemma RunAcquires(cores: seq<Core>, events: seq<Event>, clock: seq<nat>, latency: nat, id: int, c: Client, k: nat)
    requires IsTimedRun(cores, events, clock, latency) && k < |events|
    requires id in cores[k].channels ==> cores[k].channels[id].floor.speaker != c
    requires id in cores[k + 1].channels && cores[k + 1].channels[id].floor.speaker == c
    requires cores[k + 1].channels[id].floor.totDuration > 0
    ensures ArmedAt(cores[k + 1].channels[id].floor, clock[k], cores[k + 1].channels[id].floor.totDuration)
  {
    RunKeepsFloorsTimed(cores, events, clock, latency, k);
    assert Passes(cores[k], events[k], clock[k], clock[k + 1], latency) && cores[k + 1] == Next(cores[k], events[k]);
    AcquiredAt(cores[k], events[k], id, c, clock[k], latency);
  }

  /**
   In every timed run of the hub, with all its handlers and stale callbacks, nobody speaks on a channel for longer than
   the time-out plus the latency after the press that got it the floor.
   */
  lemma NobodySpeaksTooLong(cores: seq<Core>, events: seq<Event>, clock: seq<nat>, latency: nat, id: int, c: Client,
                            i: nat, j: nat)
    requires IsTimedRun(cores, events, clock, latency) && SpeaksFrom(cores, id, c, i, j)
    requires cores[i].channels[id].floor.totDuration > 0
    ensures clock[j] <= clock[i - 1] + cores[i].channels[id].floor.totDuration + latency
  {
    var t, tot := clock[i - 1], cores[i].channels[id].floor.totDuration;
    var good := seq(j - i + 1, m requires 0 <= m < j - i + 1 => ArmedAt(cores[i + m].channels[id].floor, t, tot));
    RunAcquires(cores, events, clock, latency, id, c, i - 1);
    forall m | 0 <= m < |good| - 1 && good[m] ensures good[m + 1] {
      RunStaysArmed(cores, events, clock, latency, id, c, i + m, t, tot);
    }
    HubChannels.EveryStateBy(good, j - i);
    assert i + (j - i) == j;
    RunKeepsFloorsTimed(cores, events, clock, latency, j);
    ArmedMeansInTime(cores[j].channels[id].floor, t, tot, clock[j], latency);
  }

  // ---- Preemption ----

  function SpeakerAt(k: Core, id: int): Client? {
    if id in k.channels then k.channels[id].floor.speaker else null
  }

  /** The event is an identification that gives a client another role. */
  predicate ChangesRole(k: Core, e: Event) {
    e.SetIdentity? && e.client in k.members && e.callsign != "" && e.role != "" && e.role != k.members[e.client].role
  }

  function Speakers(cores: seq<Core>, id: int, i: nat, j: nat): (speakers: seq<Client?>)
    requires i <= j < |cores|
    ensures |speakers| == j - i + 1
  {
    seq(j - i + 1, n requires 0 <= n <= j - i => SpeakerAt(cores[i + n], id))
  }

  /** How often a speaker is followed by another. */
  function Handovers(speakers: seq<Client?>): nat {
    if |speakers| < 2 then 0
    else
      var n := |speakers| - 1;
      Handovers(speakers[..n]) + if speakers[n] != speakers[n - 1] then 1 else 0
  }

  /** The next speaker is the same, with the same rank, or another one with a higher rank. */
  predicate Climbs(before: Client?, rank: int, after: Client?, afterRank: int) {
    if before == after then rank == afterRank else rank < afterRank
  }

  predicate StepClimbs(k: Core, r: Core, id: int) {
    Climbs(SpeakerAt(k, id), k.RankOf(SpeakerAt(k, id)), SpeakerAt(r, id), r.RankOf(SpeakerAt(r, id)))
  }

  lemma {:induction false} HandoversClimb(speakers: seq<Client?>, ranks: seq<int>)
    requires |speakers| == |ranks| > 0
    requires forall n :: 0 <= n < |ranks| - 1 ==> Climbs(speakers[n], ranks[n], speakers[n + 1], ranks[n + 1])
    ensures Handovers(speakers) <= ranks[|ranks| - 1] - ranks[0]
  {
    var n := |speakers| - 1;
    if n > 0 {
      HandoversClimb(speakers[..n], ranks[..n]);
      assert Climbs(speakers[n - 1], ranks[n - 1], speakers[n - 1 + 1], ranks[n - 1 + 1]);
    }
  }

  /** A moment at which the event can happen. */
  function Moment(k: Core, e: Event): (now: nat)
    requires Enabled(k, e)
    ensures OnTime(k, e, now)
  {
    match e
    case Press(_, t, _) => t
    case LetGo(_, t, _) => t
    case Expire(_, _, t, _) => t
    case FireTimer(id, t) =>
      var deadline := k.channels[id].floor.timers[t].deadline;
      if deadline < 0 then 0 else deadline
    case _ => 0
  }

  lemma RolesStay(k: Core, e: Event, c: Client)
    requires Enabled(k, e) && !ChangesRole(k, e) && c in k.members && c in Next(k, e).members
    ensures Next(k, e).members[c].role == k.members[c].role
  {
  }

  lemma SectionHandsOver(f: FloorState, section: Option<Timing.Step>, now: nat)
    requires section.Some? ==> Timing.Enabled(Timing.Sys(now, f), section.value, 0)
    requires FloorOk(f) && f.speaker != null
    requires var next := Moved(f, section, now, 0).speaker; next != null && next != f.speaker
    ensures section.Some? && section.value.Request? && section.value.rank > section.value.holderRank
    ensures section.value.client == Moved(f, section, now, 0).speaker
  {
  }

  /** A speaker follows another one only through a press. */
  lemma OnlyPressHandsOver(k: Core, e: Event, id: int)
    requires Placed(k) && Enabled(k, e) && SpeakerAt(k, id) != null && SpeakerAt(Next(k, e), id) != null
    requires SpeakerAt(Next(k, e), id) != SpeakerAt(k, id)
    ensures e.Press? && SpeakerAt(Next(k, e), id) == e.client && k.members[e.client].channelID == id
    ensures k.RankOf(SpeakerAt(k, id)) < k.RankOf(SpeakerAt(Next(k, e), id))
  {
    var now := Moment(k, e);
    EventIsOneSection(k, e, id, now, 0);
    SectionHandsOver(k.channels[id].floor, SectionOf(k, e, id), now);
  }

  lemma PressKeepsMembers(k: Core, e: Event)
    requires Enabled(k, e) && e.Press?
    ensures Next(k, e).members == k.members
  {
  }

  lemma HandoverRaisesHubRank(k: Core, e: Event, id: int, r: Core)
    requires Placed(k) && Enabled(k, e) && r == Next(k, e) && Placed(r) && !ChangesRole(k, e)
    requires SpeakerAt(k, id) != null && SpeakerAt(r, id) != null
    ensures StepClimbs(k, r, id)
  {
    if SpeakerAt(k, id) == SpeakerAt(r, id) {
      RolesStay(k, e, SpeakerAt(k, id));
    } else {
      OnlyPressHandsOver(k, e, id);
      PressKeepsMembers(k, e);
    }
  }

  lemma RunClimbs(cores: seq<Core>, events: seq<Event>, id: int, n: nat)
    requires IsRun(cores, events) && cores[0].channels != map[] && n < |events|
    requires SpeakerAt(cores[n], id) != null && SpeakerAt(cores[n + 1], id) != null
    requires !ChangesRole(cores[n], events[n])
    ensures StepClimbs(cores[n], cores[n + 1], id)
  {
    RunKeepsPlacement(cores, events, n);
    RunKeepsPlacement(cores, events, n + 1);
    HandoverRaisesHubRank(cores[n], events[n], id, cores[n + 1]);
  }

  /** A speaker's rank is 1, 2 or 3. */
  lemma RankOfSpeaker(k: Core, id: int)
    requires SpeakerAt(k, id) != null
    ensures 1 <= k.RankOf(SpeakerAt(k, id)) <= 3
  {
  }

  function SpeakerRanks(cores: seq<Core>, id: int, i: nat, j: nat): (ranks: seq<int>)
    requires i <= j < |cores|
    ensures |ranks| == j - i + 1
  {
    seq(j - i + 1, n requires 0 <= n <= j - i => cores[i + n].RankOf(SpeakerAt(cores[i + n], id)))
  }

  lemma ChainClimbs(cores: seq<Core>, id: int, i: nat, j: nat)
    requires i <= j < |cores| && forall n :: i <= n < j ==> StepClimbs(cores[n], cores[n + 1], id)
    ensures Handovers(Speakers(cores, id, i, j)) <=
            cores[j].RankOf(SpeakerAt(cores[j], id)) - cores[i].RankOf(SpeakerAt(cores[i], id))
  {
    var speakers, ranks := Speakers(cores, id, i, j), SpeakerRanks(cores, id, i, j);
    forall n | 0 <= n < |ranks| - 1 ensures Climbs(speakers[n], ranks[n], speakers[n + 1], ranks[n + 1]) {
      assert StepClimbs(cores[i + n], cores[i + n + 1], id);
    }
    HandoversClimb(speakers, ranks);
  }

  /**
   In every run of the hub, as long as a channel stays busy and no identification changes a role, its floor passes from
   speaker to speaker at most as often as the rank can rise: at most twice, however many clients press, leave and join.
   */
  lemma HubPreemptionChain(cores: seq<Core>, events: seq<Event>, id: int, i: nat, j: nat)
    requires IsRun(cores, events) && cores[0].channels != map[] && i <= j < |cores|
    requires forall n :: i <= n <= j ==> SpeakerAt(cores[n], id) != null
    requires forall n {:trigger events[n]} :: i <= n < j ==> !ChangesRole(cores[n], events[n])
    ensures Handovers(Speakers(cores, id, i, j)) <=
            cores[j].RankOf(SpeakerAt(cores[j], id)) - cores[i].RankOf(SpeakerAt(cores[i], id)) <= 2
  {
    forall n | i <= n < j ensures StepClimbs(cores[n], cores[n + 1], id) {
      RunClimbs(cores, events, id, n);
    }
    ChainClimbs(cores, id, i, j);
    RankOfSpeaker(cores[i], id);
    RankOfSpeaker(cores[j], id);
  }
}
