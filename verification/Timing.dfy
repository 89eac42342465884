/**
 Interleavings of a channel's lock sections with its time-out timers and a clock. A timer fires at or after its
 deadline, and its callback may wait for the lock while other sections run. `latency` bounds how far the clock may run
 past the deadline of a timer that has not finished.
 */
module Timing {
  import opened Wrappers
  import opened Clients
  import opened Floor
  import Roles

  datatype Sys = Sys(now: nat, floor: FloorState)

  datatype Step =
    | Subscribe(client: Client)
    | Unsubscribe(client: Client)
    | Request(client: Client, rank: int, holderRank: int)
    | Release(client: Client)
    | ForceRelease
    | Fire(timer: nat)
    | Callback(timer: nat)
    | Elapse(duration: nat)

  predicate Enabled(s: Sys, step: Step, latency: nat) {
    var timers := s.floor.timers;
    match step
    case Fire(t) => t < |timers| && timers[t].status.Armed? && timers[t].deadline <= s.now
    case Callback(t) => t < |timers| && timers[t].status.InFlight?
    case Elapse(d) => forall t :: 0 <= t < |timers| && timers[t].IsLive() ==> s.now + d <= timers[t].deadline + latency
    case _ => true
  }

  function Next(s: Sys, step: Step, latency: nat): Sys
    requires Enabled(s, step, latency)
  {
    match step
    case Subscribe(c) => s.(floor := s.floor.WithSubscriber(c))
    case Unsubscribe(c) => s.(floor := s.floor.WithoutSubscriber(c).0)
    case Request(c, rank, holderRank) => s.(floor := s.floor.Requested(c, rank, holderRank, s.now).0)
    case Release(c) => s.(floor := s.floor.Released(c).0)
    case ForceRelease => s.(floor := s.floor.Cleared())
    case Fire(t) => s.(floor := s.floor.Fired(t))
    case Callback(t) => s.(floor := s.floor.TimedOut(t))
    case Elapse(d) => s.(now := s.now + d)
  }

  /** A run: one more state than steps. */
  ghost predicate IsPath(states: seq<Sys>, steps: seq<Step>, latency: nat) {
    && |states| == |steps| + 1
    && forall k :: 0 <= k < |steps| ==>
         Enabled(states[k], steps[k], latency) && states[k + 1] == Next(states[k], steps[k], latency)
  }

  ghost predicate IsRun(states: seq<Sys>, steps: seq<Step>, latency: nat) {
    && IsPath(states, steps, latency)
    && exists tot :: states[0].floor == NewFloor(tot)
  }

  ghost predicate HasLiveTimer(f: FloorState) {
    && f.totTimer.Some? && f.totTimer.value < |f.timers|
    && f.timers[f.totTimer.value].IsLive()
    && f.timers[f.totTimer.value].grantee == f.speaker
  }

  ghost predicate Inv(s: Sys, latency: nat) {
    var f := s.floor;
    && (f.isBusy <==> f.speaker != null)
    && (!f.isBusy ==> f.totTimer.None?)
    && (f.totTimer.Some? ==> f.totDuration > 0 && f.totTimer.value < |f.timers|)
    && (f.isBusy && f.totDuration > 0 ==> HasLiveTimer(f))
    && (forall t :: 0 <= t < |f.timers| ==>
          && f.timers[t].armedAt <= s.now
          && f.timers[t].deadline == f.timers[t].armedAt + f.totDuration
          && (f.timers[t].status.InFlight? ==> f.timers[t].deadline <= s.now)
          && (f.timers[t].IsLive() ==> s.now <= f.timers[t].deadline + latency))
  }

  lemma StepKeepsInv(s: Sys, step: Step, latency: nat)
    requires Inv(s, latency) && Enabled(s, step, latency)
    ensures Inv(Next(s, step, latency), latency)
  {
  }

  /** In every reachable state a busy channel with a time-out has a live timer of its own. */
  lemma {:induction false} RunKeepsInv(states: seq<Sys>, steps: seq<Step>, latency: nat, k: nat)
    requires IsRun(states, steps, latency) && k < |states|
    ensures Inv(states[k], latency)
  {
    if k > 0 {
      RunKeepsInv(states, steps, latency, k - 1);
      StepKeepsInv(states[k - 1], steps[k - 1], latency);
    }
  }

  /** While the speaker stays, its timer stays: no section moves it, the speaker's own repeated request included. */
  lemma SameSpeakerSameTimer(s: Sys, step: Step, latency: nat)
    requires Inv(s, latency) && Enabled(s, step, latency)
    requires s.floor.speaker != null && Next(s, step, latency).floor.speaker == s.floor.speaker
    requires s.floor.totDuration > 0
    ensures var f, g := s.floor, Next(s, step, latency).floor;
            && g.totTimer == f.totTimer
            && g.timers[g.totTimer.value].armedAt == f.timers[f.totTimer.value].armedAt
  {
  }

  /** A client that acquires the floor in a step gets a timer armed at that moment. */
  lemma AcquisitionArmsTimer(s: Sys, step: Step, latency: nat)
    requires Inv(s, latency) && Enabled(s, step, latency)
    requires var c := Next(s, step, latency).floor.speaker; c != null && c != s.floor.speaker && s.floor.totDuration > 0
    ensures var g := Next(s, step, latency).floor;
            g.totTimer.Some? && g.totTimer.value < |g.timers| && g.timers[g.totTimer.value].armedAt == s.now
  {
  }

  /**
   The time-out bound, in every interleaving and with stale callbacks included: a client that acquired the floor at
   state i and speaks without a break up to state j has at j a live timer armed at the acquisition, and has held the
   floor no longer than the time-out plus the latency, however often it pressed PTT again.
   */
  lemma {:induction false} HoldTimeIsBounded(states: seq<Sys>, steps: seq<Step>, latency: nat, i: nat, j: nat,
                                             c: Client)
    requires IsRun(states, steps, latency)
    requires 0 < i <= j < |states|
    requires states[i - 1].floor.speaker != c && forall k :: i <= k <= j ==> states[k].floor.speaker == c
    requires states[j].floor.totDuration > 0
    ensures var f := states[j].floor;
            && HasLiveTimer(f)
            && f.timers[f.totTimer.value].armedAt == states[i].now
            && f.timers[f.totTimer.value].deadline == states[i].now + f.totDuration
    ensures states[j].now <= states[i].now + states[j].floor.totDuration + latency
  {
    RunKeepsInv(states, steps, latency, j);
    RunKeepsInv(states, steps, latency, j - 1);
    if i == j {
      AcquisitionArmsTimer(states[j - 1], steps[j - 1], latency);
    } else {
      HoldTimeIsBounded(states, steps, latency, i, j - 1, c);
      SameSpeakerSameTimer(states[j - 1], steps[j - 1], latency);
    }
  }

  // ---- Which grant a time-out ends ----

  /** The step calls cancelTOT on the current timer. */
  predicate Cancels(s: Sys, step: Step) {
    var f := s.floor;
    match step
    case Unsubscribe(c) => f.speaker == c
    case Request(c, rank, holderRank) => f.isBusy && f.speaker != null ==> f.speaker != c && rank > holderRank
    case Release(c) => f.speaker == c
    case ForceRelease => true
    case _ => false
  }

  /** Stop reaches the timer before its callback starts: what Stop's result would tell the caller. */
  predicate StopWins(s: Sys, step: Step) {
    Cancels(s, step) && s.floor.totTimer.Some? && s.floor.totTimer.value < |s.floor.timers| ==>
      !s.floor.timers[s.floor.totTimer.value].status.InFlight?
  }

  /** Every live timer is the current one, so at most one timer is ever armed. */
  ghost predicate OnlyCurrentTimer(f: FloorState) {
    forall t :: 0 <= t < |f.timers| && f.timers[t].IsLive() ==> f.totTimer == Some(t)
  }

  /** Exactly the cancellations that lose to the callback leave a stale timer behind. */
  lemma StaleTimerIffStopLoses(s: Sys, step: Step, latency: nat)
    requires Inv(s, latency) && Enabled(s, step, latency) && OnlyCurrentTimer(s.floor)
    ensures OnlyCurrentTimer(Next(s, step, latency).floor) <==> StopWins(s, step)
  {
  }

  ghost predicate StopAlwaysWins(states: seq<Sys>, steps: seq<Step>)
    requires |states| == |steps| + 1
  {
    forall k :: 0 <= k < |steps| ==> StopWins(states[k], steps[k])
  }

  lemma {:induction false} RunKeepsOneTimer(states: seq<Sys>, steps: seq<Step>, latency: nat, k: nat)
    requires IsRun(states, steps, latency) && StopAlwaysWins(states, steps) && k < |states|
    ensures OnlyCurrentTimer(states[k].floor)
  {
    if k > 0 {
      RunKeepsOneTimer(states, steps, latency, k - 1);
      RunKeepsInv(states, steps, latency, k - 1);
      StaleTimerIffStopLoses(states[k - 1], steps[k - 1], latency);
    }
  }

  /**
   When Stop always wins, a time-out expels exactly the speaker whose grant armed the timer and not before its
   deadline, and a speaker that loses the floor earlier lost it by its own release, by leaving, by preemption or by a
   forced release.
   */
  lemma TimeoutsHitTheirOwnGrant(states: seq<Sys>, steps: seq<Step>, latency: nat, k: nat)
    requires IsRun(states, steps, latency) && StopAlwaysWins(states, steps) && k < |steps|
    ensures steps[k].Callback? ==>
              var f := states[k].floor;
              && steps[k].timer < |f.timers| && f.totTimer == Some(steps[k].timer)
              && f.speaker == f.timers[steps[k].timer].grantee
              && f.timers[steps[k].timer].deadline <= states[k].now
    ensures var f := states[k].floor;
            && f.speaker != null && states[k + 1].floor.speaker != f.speaker && HasLiveTimer(f)
            && states[k].now < f.timers[f.totTimer.value].deadline ==>
              || steps[k] == Release(f.speaker) || steps[k] == Unsubscribe(f.speaker) || steps[k].ForceRelease?
              || (steps[k].Request? && steps[k].rank > steps[k].holderRank
                 && states[k + 1].floor.speaker == steps[k].client)
  {
    RunKeepsInv(states, steps, latency, k);
    RunKeepsOneTimer(states, steps, latency, k);
  }

  /**
   One lost race is enough to break attribution: the next client to get the floor, at the same instant, can be
   expelled at once by the stale callback although its own timer has the whole time-out to run.
   */
  lemma LostRaceExpelsNextSpeaker(s: Sys, step: Step, latency: nat, victim: Client)
    requires Inv(s, latency) && Enabled(s, step, latency) && OnlyCurrentTimer(s.floor)
    requires !StopWins(s, step) && s.floor.totDuration > 0
    requires step.Request? ==> victim == step.client
    ensures var stale := s.floor.totTimer.value;
            var s1 := Next(s, step, latency);
            var s2 := if s1.floor.speaker == null then Next(s1, Request(victim, 1, 0), latency) else s1;
            && s2.floor.speaker == victim && s2.now == s.now
            && s2.floor.timers[s2.floor.totTimer.value].deadline == s.now + s.floor.totDuration
            && Enabled(s2, Callback(stale), latency)
            && Next(s2, Callback(stale), latency).floor.speaker == null
  {
  }

  /**
   The lost race happens in a run from a new floor, with any positive time-out and any latency: `first` holds the floor
   for the whole time-out, its timer fires, it lets go before the callback gets the lock, and `next` is expelled at the
   very moment it was granted the floor.
   */
  lemma LostRaceHappens(now: nat, totDuration: nat, latency: nat, first: Client, next: Client)
    returns (states: seq<Sys>, steps: seq<Step>)
    requires totDuration > 0
    ensures steps == [Request(first, 1, 0), Elapse(totDuration), Fire(0), Release(first), Request(next, 1, 0),
            Callback(0)]
    ensures IsRun(states, steps, latency) && states[0] == Sys(now, NewFloor(totDuration))
    ensures OnlyCurrentTimer(states[3].floor) && !StopWins(states[3], steps[3])
    ensures states[5].floor.speaker == next && states[6].floor.speaker == null && states[4].now == states[6].now
  {
    steps := [Request(first, 1, 0), Elapse(totDuration), Fire(0), Release(first), Request(next, 1, 0), Callback(0)];
    var s0 := Sys(now, NewFloor(totDuration));
    var s1 := Next(s0, steps[0], latency);
    var s2 := Next(s1, steps[1], latency);
    var s3 := Next(s2, steps[2], latency);
    var due := now + totDuration;
    assert s3 == Sys(due, FloorState({}, first, true, totDuration, Some(0), [Timer(first, now, due, InFlight)]));
    var s4 := Next(s3, steps[3], latency);
    assert s4 == Sys(due, FloorState({}, null, false, totDuration, None, [Timer(first, now, due, InFlight)]));
    var s5 := Next(s4, steps[4], latency);
    states := [s0, s1, s2, s3, s4, s5, Next(s5, steps[5], latency)];
    assert states[0].floor == NewFloor(totDuration);
  }

  // ---- Preemption ----

  function RankOf(client: Client?, roles: map<Client, string>): nat {
    if client == null then 0 else if client in roles then Roles.Priority(roles[client]) else 1
  }

  /** Every request is judged by the same, unchanging roles. */
  ghost predicate RolesFixed(states: seq<Sys>, steps: seq<Step>, roles: map<Client, string>)
    requires |states| == |steps| + 1
  {
    forall k :: 0 <= k < |steps| && steps[k].Request? ==>
      steps[k].rank == RankOf(steps[k].client, roles) && steps[k].holderRank == RankOf(states[k].floor.speaker, roles)
  }

  /** How often the floor passes from one state's speaker to the next state's. */
  ghost function Handovers(states: seq<Sys>): nat {
    if |states| < 2 then 0
    else
      var n := |states| - 1;
      Handovers(states[..n]) + if states[n].floor.speaker != states[n - 1].floor.speaker then 1 else 0
  }

  lemma HandoverRaisesRank(s: Sys, step: Step, latency: nat, roles: map<Client, string>)
    requires Enabled(s, step, latency) && s.floor.isBusy
    requires step.Request? ==>
               step.rank == RankOf(step.client, roles) && step.holderRank == RankOf(s.floor.speaker, roles)
    requires s.floor.speaker != null && Next(s, step, latency).floor.speaker != null
    ensures var before, after := s.floor.speaker, Next(s, step, latency).floor.speaker;
            before == after || RankOf(before, roles) < RankOf(after, roles)
  {
  }

  /**
   Between two idle moments, with roles fixed, the speaker's rank rises at every handover, so the floor passes on at
   most as often as the rank can rise: at most twice.
   */
  lemma {:induction false} PreemptionChain(states: seq<Sys>, steps: seq<Step>, latency: nat, roles: map<Client, string>)
    requires IsPath(states, steps, latency) && RolesFixed(states, steps, roles)
    requires forall k :: 0 <= k < |states| ==> states[k].floor.isBusy && states[k].floor.speaker != null
    ensures Handovers(states) <= RankOf(states[|steps|].floor.speaker, roles) - RankOf(states[0].floor.speaker, roles)
    ensures Handovers(states) <= 2
    decreases |steps|
  {
    var n := |steps|;
    if n > 0 {
      PreemptionChain(states[..n], steps[..n - 1], latency, roles);
      assert states[n].floor.speaker != null;
      HandoverRaisesRank(states[n - 1], steps[n - 1], latency, roles);
    }
  }
}
