/** Whose keying a recording is: in every run the buffer of a busy channel carries the data of its latest grant. */
module HubGrants {
  import opened Clients
  import opened Floor
  import opened HubCore
  import opened HubRuns
  import opened HubTiming
  import opened Wrappers
  import HubArchive
  import HubChannels
  import HubLog
  import HubMail
  import HubObserver
  import HubSystem
  import Timing

  /** The latest moment before `i` at which `p` holds. */
  function Latest(p: seq<bool>, i: nat): (g: int)
    requires i <= |p|
    ensures -1 <= g < i && (0 <= g ==> p[g]) && forall n :: g < n < i ==> !p[n]
  {
    if i == 0 then -1 else if p[i - 1] then i - 1 else Latest(p, i - 1)
  }

  /** Step `n` grants channel `id`: a client on it presses, and speaks there afterwards. */
  predicate Grants(cores: seq<Core>, events: seq<Event>, id: int, n: nat)
    requires n < |events| < |cores|
  {
    var k, e := cores[n], events[n];
    e.Press? && e.client in k.members && k.members[e.client].channelID == id && SpeakerAt(cores[n + 1], id) == e.client
  }

  /** The latest of the first `i` steps that grants channel `id`, or -1. */
  function LatestGrant(cores: seq<Core>, events: seq<Event>, id: int, i: nat): (g: int)
    requires i <= |events| < |cores|
    ensures -1 <= g < i
  {
    Latest(seq(|events|, n requires 0 <= n < |events| => Grants(cores, events, id, n)), i)
  }

  /** Channel `id` is the speaker's that `e` granted it to in state `k`, and so is what the recorder has noted. */
  ghost predicate BelongsTo(r: Core, id: int, k: Core, e: Event) {
    && e.Press? && e.client in k.members && k.members[e.client].channelID == id && SpeakerAt(r, id) == e.client
    && var m := k.members[e.client];
       r.recorder.enabled ==>
         && id in r.recorder.activeTX
         && var tx := r.recorder.activeTX[id];
            && tx.channelID == id && tx.speakerID == m.id && tx.callsign == m.callsign && tx.role == m.role
            && tx.startTime == e.now
  }

  lemma GrantIsNoted(k: Core, c: Client, now: nat, ok: bool)
    requires Placed(k) && c in k.members && SpeakerAt(PTTDown(k, c, now, ok), k.members[c].channelID) == c
    ensures BelongsTo(PTTDown(k, c, now, ok), k.members[c].channelID, k, Press(c, now, ok))
  {
    HubObserver.PressOutcome(k, c, now, ok);
    var f := k.channels[k.members[c].channelID].floor;
    HubObserver.RequestOutcome(f, c, k.RankOf(c), k.RankOf(f.speaker), now);
  }

  /** Of the buffer of channel `id`, everything but the audio is as it was. */
  ghost predicate SameHeader(k: Core, r: Core, id: int) {
    && r.recorder.enabled == k.recorder.enabled
    && (id in k.recorder.activeTX ==>
          && id in r.recorder.activeTX
          && r.recorder.activeTX[id].(pcm := []) == k.recorder.activeTX[id].(pcm := []))
  }

  lemma PressKeepsHeader(k: Core, c: Client, now: nat, ok: bool, id: int)
    requires Placed(k) && c in k.members && id in k.channels
    requires !(k.members[c].channelID == id && SpeakerAt(PTTDown(k, c, now, ok), id) == c)
    ensures SameHeader(k, PTTDown(k, c, now, ok), id)
  {
    HubObserver.PressOutcome(k, c, now, ok);
    var f := k.channels[k.members[c].channelID].floor;
    HubObserver.RequestOutcome(f, c, k.RankOf(c), k.RankOf(f.speaker), now);
  }

  lemma LetGoKeepsHeader(k: Core, c: Client, now: nat, ok: bool, id: int)
    requires Placed(k) && c in k.members && id in k.channels && SpeakerAt(PTTUp(k, c, now, ok), id) != null
    ensures SameHeader(k, PTTUp(k, c, now, ok), id)
  {
    if k.channels[k.members[c].channelID].floor.speaker == c {
      HubObserver.LetGoOutcome(k, c, now, ok);
    }
  }

  lemma ExpireKeepsHeader(k: Core, ch: int, t: nat, now: nat, ok: bool, id: int)
    requires Placed(k) && ch in k.channels && t < |k.channels[ch].floor.timers| && id in k.channels
    requires SpeakerAt(TimeOut(k, ch, t, now, ok), id) != null
    ensures SameHeader(k, TimeOut(k, ch, t, now, ok), id)
  {
  }

  lemma OthersKeepHeader(k: Core, e: Event, id: int)
    requires Enabled(k, e) && !HubArchive.EndsKeying(e) && !IsMove(e)
    ensures SameHeader(k, Next(k, e), id)
  {
  }

  lemma ComingOrGoingKeepsHeader(k: Core, e: Event, id: int)
    requires Enabled(k, e) && (e.Connect? || e.Disconnect?)
    ensures SameHeader(k, Next(k, e), id)
  {
  }

  lemma SwitchKeepsRecorder(k: Core, c: Client, target: int, password: string)
    requires c in k.members
    ensures SwitchChannel(k, c, target, password).recorder == k.recorder
  {
  }

  lemma SwitchingKeepsHeader(k: Core, e: Event, id: int)
    requires Enabled(k, e) && (e.Join? || e.Create?)
    ensures SameHeader(k, Next(k, e), id)
  {
    if e.Join? {
      SwitchKeepsRecorder(k, e.client, e.channelID, e.password);
    } else if e.name != "" {
      SwitchKeepsRecorder(AddChannel(k, e.name, e.isPrivate, e.password), e.client, NewChannelID(k), e.password);
    }
  }

  lemma HeaderStays(k: Core, e: Event, id: int, r: Core)
    requires Placed(k) && Enabled(k, e) && r == Next(k, e) && id in k.channels && SpeakerAt(r, id) != null
    requires !(e.Press? && k.members[e.client].channelID == id && SpeakerAt(r, id) == e.client)
    ensures SameHeader(k, r, id)
  {
    if e.Press? {
      PressKeepsHeader(k, e.client, e.now, e.writeOk, id);
    } else if e.LetGo? {
      LetGoKeepsHeader(k, e.client, e.now, e.writeOk, id);
    } else if e.Expire? {
      ExpireKeepsHeader(k, e.channelID, e.timer, e.now, e.writeOk, id);
    } else if e.Connect? || e.Disconnect? {
      ComingOrGoingKeepsHeader(k, e, id);
    } else if e.Join? || e.Create? {
      SwitchingKeepsHeader(k, e, id);
    } else {
      OthersKeepHeader(k, e, id);
    }
  }

  lemma SpeakerStays(k: Core, e: Event, id: int, r: Core)
    requires Placed(k) && Enabled(k, e) && r == Next(k, e) && SpeakerAt(k, id) != null && SpeakerAt(r, id) != null
    requires !(e.Press? && k.members[e.client].channelID == id && SpeakerAt(r, id) == e.client)
    ensures SpeakerAt(r, id) == SpeakerAt(k, id)
  {
    if SpeakerAt(r, id) != SpeakerAt(k, id) {
      OnlyPressHandsOver(k, e, id);
    }
  }

  lemma BelongingStays(k: Core, e: Event, id: int, r: Core, k0: Core, e0: Event)
    requires Placed(k) && Enabled(k, e) && r == Next(k, e) && SpeakerAt(r, id) != null && BelongsTo(k, id, k0, e0)
    requires !(e.Press? && k.members[e.client].channelID == id && SpeakerAt(r, id) == e.client)
    ensures BelongsTo(r, id, k0, e0)
  {
    SpeakerStays(k, e, id, r);
    HeaderStays(k, e, id, r);
  }

  lemma SectionMakesBusy(f: FloorState, section: Option<Timing.Step>, now: nat)
    requires section.Some? ==> Timing.Enabled(Timing.Sys(now, f), section.value, 0)
    requires FloorOk(f) && f.speaker == null && Moved(f, section, now, 0).speaker != null
    ensures section.Some? && section.value.Request? && section.value.client == Moved(f, section, now, 0).speaker
  {
  }

  /** An idle channel becomes busy only by a grant. */
  lemma OnlyGrantMakesBusy(k: Core, e: Event, id: int, r: Core)
    requires Placed(k) && Enabled(k, e) && r == Next(k, e) && SpeakerAt(k, id) == null && SpeakerAt(r, id) != null
    ensures e.Press? && k.members[e.client].channelID == id && SpeakerAt(r, id) == e.client
  {
    if id in k.channels {
      EventIsOneSection(k, e, id, Moment(k, e), 0);
      SectionMakesBusy(k.channels[id].floor, SectionOf(k, e, id), Moment(k, e));
    } else {
      CreatedChannelIsUnused(k, e, id);
    }
  }

  // ---- Runs ----

  /** A busy channel and its buffer are those of the latest grant. */
  ghost predicate OwnedAt(cores: seq<Core>, events: seq<Event>, id: int, i: nat)
    requires i <= |events| < |cores|
  {
    SpeakerAt(cores[i], id) != null ==>
      var g := LatestGrant(cores, events, id, i);
      0 <= g && BelongsTo(cores[i], id, cores[g], events[g])
  }

  lemma LatestGrantStep(cores: seq<Core>, events: seq<Event>, id: int, i: nat)
    requires i < |events| < |cores|
    ensures LatestGrant(cores, events, id, i + 1) ==
            if Grants(cores, events, id, i) then i else LatestGrant(cores, events, id, i)
  {
  }

  lemma StepKeepsOwned(cores: seq<Core>, events: seq<Event>, id: int, i: nat)
    requires i < |events| < |cores| && Placed(cores[i]) && Enabled(cores[i], events[i])
    requires cores[i + 1] == Next(cores[i], events[i]) && OwnedAt(cores, events, id, i)
    ensures OwnedAt(cores, events, id, i + 1)
  {
    var k, e, r := cores[i], events[i], cores[i + 1];
    LatestGrantStep(cores, events, id, i);
    if SpeakerAt(r, id) != null {
      if Grants(cores, events, id, i) {
        GrantIsNoted(k, e.client, e.now, e.writeOk);
      } else {
        if SpeakerAt(k, id) == null {
          OnlyGrantMakesBusy(k, e, id, r);
        }
        var g := LatestGrant(cores, events, id, i);
        BelongingStays(k, e, id, r, cores[g], events[g]);
      }
    }
  }

  lemma RunStepKeepsOwned(cores: seq<Core>, events: seq<Event>, id: int, i: nat)
    requires IsRun(cores, events) && cores[0].channels != map[] && i < |events| && OwnedAt(cores, events, id, i)
    ensures OwnedAt(cores, events, id, i + 1)
  {
    RunKeepsPlacement(cores, events, i);
    StepKeepsOwned(cores, events, id, i);
  }

  /**
   In every run, the speaker of a busy channel is the client that the latest grant went to, and the buffer of its
   recording carries the channel, and identifier, callsign and role that client had at that moment.
   */
  lemma BufferIsTheGrantees(cores: seq<Core>, events: seq<Event>, id: int, i: nat)
    requires IsRun(cores, events) && cores[0].channels != map[] && i < |cores|
    ensures OwnedAt(cores, events, id, i)
  {
    var good := seq(|cores|, j requires 0 <= j < |cores| => OwnedAt(cores, events, id, j));
    forall j | 0 <= j < |good| - 1 && good[j] ensures good[j + 1] {
      RunStepKeepsOwned(cores, events, id, j);
    }
    HubChannels.EveryStateBy(good, i);
  }

  /**
   In every run, a recording that is announced carries the channel, callsign and role of the member that the latest
   grant of that channel went to, as they were then, whoever ends the keying and whatever was renamed since.
   */
  lemma RecordingsNameTheGrantee(cores: seq<Core>, mails: seq<HubMail.Mail>, events: seq<Event>, i: nat)
    requires HubSystem.IsSystemRun(cores, mails, events) && i < |events|
    requires HubLog.Replay(mails[i + 1].log).recorded != HubLog.Replay(mails[i].log).recorded
    ensures var id := HubSystem.FloorChannel(cores[i], events[i]);
            var g := LatestGrant(cores, events, id, i);
            && 0 <= g && events[g].client in cores[g].members
            && var all, m := HubLog.Replay(mails[i + 1].log).recorded, cores[g].members[events[g].client];
               && all != []
               && var rec := all[|all| - 1];
                  rec.channelID == m.channelID == id && rec.callsign == m.callsign && rec.role == m.role
  {
    var id := HubSystem.FloorChannel(cores[i], events[i]);
    HubSystem.RecordingsAreFaithful(cores, mails, events, i);
    BufferIsTheGrantees(cores, events, id, i);
    RunKeepsPlacement(cores, events, i);
  }
}
