/**
 Half-duplex floor control of one channel (internal/radio/channel.go): the lock sections as functions on the guarded
 state, and the Channel class whose methods are proved to compute them.
 */
module Floor {
  import opened Wrappers
  import opened Clients
  import opened Messages
  import Roles

  datatype TimerStatus = Armed | InFlight | Done

  /**
   One time.AfterFunc timer. `grantee` and `armedAt` record the grant that armed it; no operation reads them.
   A timer in flight has fired and its callback waits for the channel's lock; Stop no longer reaches it.
   */
  datatype Timer = Timer(grantee: Client, armedAt: nat, deadline: int, status: TimerStatus) {
    predicate IsLive() { !status.Done? }
  }

  datatype FloorReply = FloorReply(granted: bool, reason: string, holder: Client?, preempted: Client?)

  /** The fields guarded by the channel's lock, with every timer the channel ever started, and the lock sections. */
  datatype FloorState = FloorState(subscribers: set<Client>, speaker: Client?, isBusy: bool,
                                   totDuration: int, totTimer: Option<nat>, timers: seq<Timer>) {

    /** cancelTOT: the result of Stop is ignored, and a timer already in flight stays in flight. */
    function Cancelled(): FloorState {
      if totTimer.None? then this
      else
        var t := totTimer.value;
        this.(totTimer := None,
              timers := if t < |timers| && timers[t].status.Armed?
                        then timers[t := timers[t].(status := Done)] else timers)
    }

    function ArmedFor(client: Client, now: nat): FloorState {
      if totDuration > 0
      then this.(totTimer := Some(|timers|), timers := timers + [Timer(client, now, now + totDuration, Armed)])
      else this
    }

    /** ForceReleaseFloor, and the common end of every release. */
    function Cleared(): FloorState {
      Cancelled().(speaker := null, isBusy := false)
    }

    function WithSubscriber(client: Client): FloorState {
      this.(subscribers := subscribers + {client})
    }

    function WithoutSubscriber(client: Client): (FloorState, bool) {
      var f := this.(subscribers := subscribers - {client});
      if speaker == client then (f.Cleared(), true) else (f, false)
    }

    /** `rank` and `holderRank` are the priorities of the requester and of the active speaker at this moment. */
    function Requested(client: Client, rank: int, holderRank: int, now: nat): (FloorState, FloorReply) {
      if isBusy && speaker != null then
        if speaker == client then (this, FloorReply(true, "", null, null))
        else if rank > holderRank then
          (Cancelled().(speaker := client).ArmedFor(client, now), FloorReply(true, "preempted", speaker, speaker))
        else (this, FloorReply(false, "channel_busy", speaker, null))
      else
        (this.(isBusy := true, speaker := client).Cancelled().ArmedFor(client, now), FloorReply(true, "", null, null))
    }

    function Released(client: Client): (FloorState, bool) {
      if speaker == client then (Cleared(), true) else (this, false)
    }

    /** The callback's lock section: it clears whoever speaks and forgets the current timer without stopping it. */
    function TimedOut(t: nat): FloorState
      requires t < |timers|
    {
      this.(speaker := null, isBusy := false, totTimer := None, timers := timers[t := timers[t].(status := Done)])
    }

    /** The runtime starts the callback of timer `t`. */
    function Fired(t: nat): FloorState
      requires t < |timers|
    {
      this.(timers := timers[t := timers[t].(status := InFlight)])
    }
  }

  function NewFloor(totDuration: int): FloorState {
    FloorState({}, null, false, totDuration, None, [])
  }

  /**
   The floor goes to the requester exactly if nobody speaks, it speaks already, or it outranks the speaker; a speaker is
   displaced exactly in the last case, and a denial names the speaker.
   */
  lemma RequestGrantedIff(f: FloorState, client: Client, rank: int, holderRank: int, now: nat)
    requires f.isBusy <==> f.speaker != null
    ensures var (g, reply) := f.Requested(client, rank, holderRank, now);
            && (reply.granted <==> !f.isBusy || f.speaker == client || rank > holderRank)
            && g.isBusy && g.speaker == (if reply.granted then client else f.speaker) && g.subscribers == f.subscribers
            && reply.preempted == (if reply.granted && f.isBusy && f.speaker != client then f.speaker else null)
            && (!reply.granted ==> g == f && reply.holder == f.speaker && reply.reason == "channel_busy")
            && (reply.granted ==> reply.reason == if reply.preempted != null then "preempted" else "")
            && (f.speaker == client ==> g == f)
  {
  }

  datatype ChannelDef = ChannelDef(id: int, name: string, isPrivate: bool, password: string)

  class Channel {
    const definition: ChannelDef
    const totDuration: int
    var subscribers: set<Client>
    var activeSpeaker: Client?
    var isBusy: bool
    var totTimer: Option<nat>
    var timers: seq<Timer>

    constructor (def: ChannelDef, tot: int)
      ensures definition == def && State() == NewFloor(tot)
    {
      definition, totDuration := def, tot;
      subscribers, activeSpeaker, isBusy, totTimer, timers := {}, null, false, None, [];
    }

    function State(): FloorState
      reads this`subscribers, this`activeSpeaker, this`isBusy, this`totTimer, this`timers
    {
      FloorState(subscribers, activeSpeaker, isBusy, totDuration, totTimer, timers)
    }

    method AddSubscriber(client: Client)
      modifies this
      ensures State() == old(State()).WithSubscriber(client)
    {
      subscribers := subscribers + {client};
    }

    method RemoveSubscriber(client: Client) returns (released: bool)
      modifies this
      ensures (State(), released) == old(State()).WithoutSubscriber(client)
    {
      subscribers := subscribers - {client};
      if activeSpeaker == client {
        CancelTOT();
        activeSpeaker := null;
        isBusy := false;
        return true;
      }
      return false;
    }

    static method GetPriority(client: Client?) returns (rank: int)
      ensures rank == if client == null then 0 else Roles.Priority(client.role)
    {
      if client == null {
        return 0;
      }
      rank := Roles.Priority(client.role);
    }

    method RequestFloor(client: Client, now: nat) returns (reply: FloorReply)
      modifies this
      ensures (State(), reply) == old(State()).Requested(client, Roles.Priority(client.role),
                if old(activeSpeaker) == null then 0 else Roles.Priority(old(activeSpeaker).role), now)
    {
      if isBusy && activeSpeaker != null {
        if activeSpeaker == client {
          return FloorReply(true, "", null, null);
        }
        var rank := GetPriority(client);
        var holderRank := GetPriority(activeSpeaker);
        if rank > holderRank {
          var preempted := activeSpeaker;
          CancelTOT();
          activeSpeaker := client;
          StartTOT(client, now);
          return FloorReply(true, "preempted", preempted, preempted);
        }
        return FloorReply(false, "channel_busy", activeSpeaker, null);
      }
      isBusy := true;
      activeSpeaker := client;
      CancelTOT();
      StartTOT(client, now);
      return FloorReply(true, "", null, null);
    }

    method ReleaseFloor(client: Client) returns (released: bool)
      modifies this
      ensures (State(), released) == old(State()).Released(client)
    {
      if activeSpeaker == client {
        CancelTOT();
        activeSpeaker := null;
        isBusy := false;
        return true;
      }
      return false;
    }

    method ForceReleaseFloor() returns (prev: Client?)
      modifies this
      ensures State() == old(State()).Cleared() && prev == old(activeSpeaker)
    {
      prev := activeSpeaker;
      CancelTOT();
      activeSpeaker := null;
      isBusy := false;
    }

    method IsFloorHolder(client: Client) returns (holds: bool)
      ensures holds <==> isBusy && activeSpeaker == client
    {
      holds := isBusy && activeSpeaker == client;
    }

    method CancelTOT()
      modifies this
      ensures State() == old(State()).Cancelled()
    {
      if totTimer.Some? {
        var t := totTimer.value;
        if t < |timers| && timers[t].status.Armed? {
          timers := timers[t := timers[t].(status := Done)];
        }
        totTimer := None;
      }
    }

    method StartTOT(client: Client, now: nat)
      modifies this
      ensures State() == old(State()).ArmedFor(client, now)
    {
      if totDuration > 0 {
        totTimer := Some(|timers|);
        timers := timers + [Timer(client, now, now + totDuration, Armed)];
      }
    }

    /** The lock section of handleTOT; the hub reports the expiry afterwards. */
    method HandleTOT(t: nat) returns (speaker: Client?)
      requires t < |timers|
      modifies this
      ensures State() == old(State()).TimedOut(t) && speaker == old(activeSpeaker)
    {
      speaker := activeSpeaker;
      activeSpeaker := null;
      isBusy := false;
      totTimer := None;
      timers := timers[t := timers[t].(status := Done)];
    }

    method BroadcastSignal(msg: Message)
      modifies subscribers`send
      ensures forall c <- subscribers :: c.Queues() == old(c.Queues()).Enqueue(Json(msg))
    {
      EnqueueToAll(subscribers, Json(msg));
    }

    method BroadcastAudio(sender: Client?, data: Frame)
      modifies subscribers`send
      ensures forall c <- subscribers :: c.Queues() ==
                if c == sender then old(c.Queues()) else old(c.Queues()).Enqueue(data)
    {
      var listeners := set c | c in subscribers && c != sender;
      EnqueueToAll(listeners, data);
    }
  }
}
