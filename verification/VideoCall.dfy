/** The video variables of internal/web/static/js/radio.js and the handlers that update them. */
module VideoCall {
  import opened Wrappers
  import opened Glare

  // ---- ICE candidates ----

  /**
   The candidates of one browser: those waiting for a remote description and those added to the current connection. Of
   earlier connections there remain `retired`, everything that had arrived for them, and `dropped`, what was never
   added.
   */
  datatype Ice = Ice(hasRemoteDescription: bool, pending: seq<string>, added: seq<string>,
                     retired: seq<string>, dropped: seq<string>) {
    predicate Valid() {
      if hasRemoteDescription then pending == [] else added == []
    }

    /** Everything that ever arrived, in order. */
    function Arrivals(): seq<string> {
      retired + added + pending
    }

    /** A candidate arrives: it waits as long as there is no remote description. */
    function Arrived(candidate: string): Ice {
      if hasRemoteDescription then this.(added := added + [candidate]) else this.(pending := pending + [candidate])
    }

    /** A remote description is set and the waiting candidates are flushed. */
    function Described(): Ice {
      this.(hasRemoteDescription := true, added := added + pending, pending := [])
    }

    /** The connection goes, or a new one takes its place, and the queue is cleared. */
    function Renewed(): Ice {
      Ice(false, [], [], Arrivals(), dropped + pending)
    }

    /** The connection goes, and the queue is left as it is. */
    function Closed(): Ice {
      this.(hasRemoteDescription := false, added := [], retired := retired + added)
    }
  }

  // ---- Signals ----

  /** The browser's connection and its candidates. */
  datatype Room = Room(peer: Peer, ice: Ice)

  /**
   The six messages of a video call, then what the user and the connection itself do. `onChannel` says whether a message
   names the browser's channel, `sameCallsign` whether the caller uses its callsign; `isDown` and `isConnected` read
   connectionState, and `isOpen` says whether the video window is shown.
   */
  datatype Signal =
    | VideoCallStart(onChannel: bool, sender: int, sameCallsign: bool, isDown: bool, offer: nat)
    | VideoJoin(sender: int, target: Option<int>, isConnected: bool, offer: nat)
    | VideoOffer(sender: int, offer: nat, rollbackOk: bool)
    | VideoAnswer(answer: nat)
    | VideoIce(candidate: string)
    | VideoCallEnd(onChannel: bool, from: Option<int>)
    | EnterRoom
    | LeaveRoom(isOpen: bool)
    | SwitchStream(isConnected: bool, offer: nat)
    | LosePeer(peerID: int)

  /** What the browser does with an offer: ignore it, or answer it, on the connection it has or on a new one. */
  predicate AnswersOffer(p: Peer, sender: int) {
    sender != p.id && (p.Waits() ==> p.id < sender)
  }

  /** Whether a message makes the browser call setupPeerConnection. */
  predicate SetsUpConnection(p: Peer, s: Signal) {
    match s
    case VideoCallStart(onChannel, sender, sameCallsign, isDown, _) =>
      onChannel && sender != p.id && !sameCallsign && p.isVideoCallActive && (p.connection.NoConnection? || isDown)
    case VideoJoin(sender, target, isConnected, _) =>
      && sender != p.id && (target.Some? ==> target.value == p.id) && p.isVideoCallActive
      && !(!p.connection.NoConnection? && isConnected && p.currentVideoPeerID == Some(sender))
    case VideoOffer(sender, _, rollbackOk) =>
      && AnswersOffer(p, sender)
      && if p.Waits() then !rollbackOk else p.connection.NoConnection? || p.currentVideoPeerID != Some(sender)
    case _ => false
  }

  /** The deterministic tie-breaker: the higher identifier offers, and so does a peer that was asked by name. */
  predicate Initiates(p: Peer, s: Signal) {
    (s.VideoCallStart? && p.id > s.sender) || (s.VideoJoin? && (s.target == Some(p.id) || p.id > s.sender))
  }

  /** Whether a video_call_end concerns the browser. */
  predicate EndsCall(p: Peer, s: Signal) {
    && s.VideoCallEnd? && s.onChannel && s.from != Some(p.id)
    && (p.currentVideoPeerID.Some? && s.from.Some? ==> s.from == p.currentVideoPeerID)
  }

  /** setupPeerConnection. */
  function SetUp(r: Room, target: int, isInitiator: bool, offer: nat): Room {
    var p := r.peer.Connected(target);
    Room(if isInitiator then p.Offering(offer) else p, r.ice.Renewed())
  }

  function HungUp(p: Peer): Peer {
    p.(connection := NoConnection, currentVideoPeerID := None)
  }

  /** The handlers, up to what they send. */
  function After(r: Room, s: Signal): Room {
    match s
    case VideoCallStart(_, sender, _, _, offer) =>
      if SetsUpConnection(r.peer, s) then SetUp(r, sender, Initiates(r.peer, s), offer) else r
    case VideoJoin(sender, _, _, offer) =>
      if SetsUpConnection(r.peer, s) then SetUp(r, sender, Initiates(r.peer, s), offer) else r
    case VideoOffer(sender, offer, ok) =>
      Room(r.peer.Offered(sender, offer, ok).0,
           if !AnswersOffer(r.peer, sender) then r.ice
           else if SetsUpConnection(r.peer, s) then r.ice.Renewed().Described()
           else r.ice.Described())
    case VideoAnswer(answer) => Room(r.peer.Answered(answer), if r.peer.Waits() then r.ice.Described() else r.ice)
    case VideoIce(candidate) => r.(ice := r.ice.Arrived(candidate))
    case VideoCallEnd(_, _) => if EndsCall(r.peer, s) then Room(HungUp(r.peer), r.ice.Renewed()) else r
    case EnterRoom => r.(peer := r.peer.(isVideoCallActive := true))
    case LeaveRoom(isOpen) =>
      if r.peer.isVideoCallActive || isOpen
      then Room(HungUp(r.peer).(isVideoCallActive := false), r.ice.Closed()) else r
    case SwitchStream(isConnected, offer) =>
      if r.peer.MayRenegotiate(isConnected) then r.(peer := r.peer.Offering(offer)) else r
    case LosePeer(id) =>
      if r.peer.currentVideoPeerID == Some(id) then r.(peer := r.peer.(currentVideoPeerID := None)) else r
  }

  /** The offers and answers a handler sends, with their targets. */
  function Sends(p: Peer, s: Signal): seq<(int, Message)> {
    match s
    case VideoCallStart(_, sender, _, _, offer) =>
      if SetsUpConnection(p, s) && Initiates(p, s) then [(sender, Offer(offer))] else []
    case VideoJoin(sender, _, _, offer) =>
      if SetsUpConnection(p, s) && Initiates(p, s) then [(sender, Offer(offer))] else []
    case VideoOffer(sender, offer, ok) =>
      var reply := p.Offered(sender, offer, ok).1;
      if reply.Some? then [(sender, reply.value)] else []
    case SwitchStream(isConnected, offer) =>
      if p.MayRenegotiate(isConnected) then [(p.currentVideoPeerID.value, Offer(offer))] else []
    case _ => []
  }

  // ---- What becomes of the candidates ----

  /** The signal sets up a connection or ends the call: either clears the queue of waiting candidates. */
  predicate ClearsQueue(p: Peer, s: Signal) {
    SetsUpConnection(p, s) || EndsCall(p, s)
  }

  function AfterAll(r: Room, signals: seq<Signal>): Room {
    if signals == [] then r else After(AfterAll(r, signals[..|signals| - 1]), signals[|signals| - 1])
  }

  function Candidates(signals: seq<Signal>): seq<string> {
    if signals == [] then []
    else
      var s := signals[|signals| - 1];
      Candidates(signals[..|signals| - 1]) + if s.VideoIce? then [s.candidate] else []
  }

  /** How many of the signals clear the queue while candidates wait. */
  function CostlySignals(r: Room, signals: seq<Signal>): nat {
    if signals == [] then 0
    else
      var front, s := signals[..|signals| - 1], signals[|signals| - 1];
      var t := AfterAll(r, front);
      CostlySignals(r, front) + if ClearsQueue(t.peer, s) && t.ice.pending != [] then 1 else 0
  }

  /**
   Whatever happens in whatever order, no candidate is lost sight of or overtaken: all that arrived are, in this order,
   those of earlier connections, those added to the current one, and those that wait. Candidates are dropped if and only
   if a connection is set up or the call is ended from afar while some wait.
   */
  lemma {:induction false} CandidatesAreDroppedIffQueueIsCleared(r: Room, signals: seq<Signal>)
    requires r.ice.Valid()
    ensures var t := AfterAll(r, signals);
            && t.ice.Valid() && t.ice.Arrivals() == r.ice.Arrivals() + Candidates(signals)
            && r.ice.dropped <= t.ice.dropped
            && (t.ice.dropped == r.ice.dropped <==> CostlySignals(r, signals) == 0)
  {
    if signals == [] {
    } else {
      var front, s := signals[..|signals| - 1], signals[|signals| - 1];
      CandidatesAreDroppedIffQueueIsCleared(r, front);
      SignalKeepsArrivals(AfterAll(r, front), s);
    }
  }

  lemma SignalKeepsArrivals(r: Room, s: Signal)
    requires r.ice.Valid()
    ensures var t := After(r, s);
            && t.ice.Valid() && t.ice.Arrivals() == r.ice.Arrivals() + (if s.VideoIce? then [s.candidate] else [])
            && t.ice.dropped == r.ice.dropped + if ClearsQueue(r.peer, s) then r.ice.pending else []
  {
  }

  function Arriving(candidates: seq<string>): (r: seq<Signal>)
    ensures |r| == |candidates|
  {
    seq(|candidates|, i requires 0 <= i < |candidates| => VideoIce(candidates[i]))
  }

  lemma {:induction false} CandidatesOnly(r: Room, candidates: seq<string>)
    requires r.ice.Valid()
    ensures AfterAll(r, Arriving(candidates)) ==
            r.(ice := if r.ice.hasRemoteDescription then r.ice.(added := r.ice.added + candidates)
                      else r.ice.(pending := r.ice.pending + candidates))
  {
    var n := |candidates|;
    if n == 0 {
      assert Arriving(candidates) == [] && r.ice.added + candidates == r.ice.added
        && r.ice.pending + candidates == r.ice.pending;
    } else {
      CandidatesOnly(r, candidates[..n - 1]);
      assert Arriving(candidates)[..n - 1] == Arriving(candidates[..n - 1]);
      assert candidates == candidates[..n - 1] + [candidates[n - 1]];
    }
  }

  /**
   Candidates that arrive ahead of the first connection are all dropped when it is set up, by an offer, by a join or by
   the start of a call: that clears the queue in which they were to wait.
   */
  lemma CandidatesAheadOfTheConnectionAreDropped(r: Room, candidates: seq<string>, s: Signal)
    requires r.ice.Valid() && !r.ice.hasRemoteDescription && SetsUpConnection(r.peer, s)
    ensures var t := After(AfterAll(r, Arriving(candidates)), s);
            t.ice.added == [] && t.ice.pending == [] && t.ice.dropped == r.ice.dropped + (r.ice.pending + candidates)
  {
    CandidatesOnly(r, candidates);
  }

  /** Without a connection every offer from elsewhere is such a signal, and in an active call so is every join. */
  lemma FirstContactSetsUpConnection(p: Peer, sender: int, number: nat, ok: bool)
    requires p.connection.NoConnection? && sender != p.id
    ensures SetsUpConnection(p, VideoOffer(sender, number, ok))
    ensures SetsUpConnection(p, VideoJoin(sender, None, ok, number)) <==> p.isVideoCallActive
    ensures SetsUpConnection(p, VideoCallStart(true, sender, false, ok, number)) <==> p.isVideoCallActive
  {
  }

  /** The caller loses none: what arrives ahead of the answer is added when it comes. */
  lemma CandidatesAheadOfTheAnswerAreAdded(r: Room, candidates: seq<string>, answer: nat)
    requires r.ice.Valid() && r.peer.Waits()
    ensures var t := After(AfterAll(r, Arriving(candidates)), VideoAnswer(answer));
            && t.ice.added == r.ice.added + r.ice.pending + candidates
            && t.ice.pending == [] && t.ice.dropped == r.ice.dropped
  {
    CandidatesOnly(r, candidates);
  }

  // ---- Who offers ----

  /** What tells a browser that another one is in the call: its start, or a join that names nobody. */
  predicate Greets(s: Signal, sender: int) {
    (s.VideoCallStart? && s.sender == sender) || (s.VideoJoin? && s.sender == sender && s.target.None?)
  }

  /** The room has a connection to `other`, and both descriptions are in place. */
  predicate IsPaired(r: Room, other: int) {
    r.peer.connection.Stable? && r.peer.currentVideoPeerID == Some(other) && r.ice.hasRemoteDescription
  }

  /**
   Two browsers greet each other, and both heed it: exactly one of them offers, the one with the higher identifier, and
   to the other one. Whether or not the lower one has been greeted by then, it answers, and once it has been, that offer
   and that answer pair the two.
   */
  lemma HigherOneOffers(high: Room, low: Room, toHigh: Signal, toLow: Signal, ok: bool)
    requires high.peer.id > low.peer.id && Greets(toHigh, low.peer.id) && Greets(toLow, high.peer.id)
    requires SetsUpConnection(high.peer, toHigh) && SetsUpConnection(low.peer, toLow)
    ensures var offer := VideoOffer(high.peer.id, toHigh.offer, ok);
            && Sends(high.peer, toHigh) == [(low.peer.id, Offer(toHigh.offer))] && Sends(low.peer, toLow) == []
            && Sends(After(low, toLow).peer, offer) == Sends(low.peer, offer) == [(high.peer.id, Answer(toHigh.offer))]
            && IsPaired(After(After(low, toLow), offer), high.peer.id)
            && IsPaired(After(After(high, toHigh), VideoAnswer(toHigh.offer)), low.peer.id)
  {
  }

  /** A browser that a join asks for by name offers, whichever identifier is higher, and nobody else does. */
  lemma NamedOneOffers(p: Peer, sender: int, target: int, isConnected: bool, offer: nat)
    requires p.isVideoCallActive && p.connection.NoConnection? && sender != p.id
    ensures Sends(p, VideoJoin(sender, Some(target), isConnected, offer)) ==
            if target == p.id then [(sender, Offer(offer))] else []
  {
  }

  // ---- Who is heeded ----

  /**
   The start of a call by somebody else, under another callsign and on the browser's channel, connects a browser that is
   in a call without a working connection to whoever started it. Any other start changes and sends nothing.
   */
  lemma StartIsHeededIff(r: Room, sender: int, onChannel: bool, sameCallsign: bool, isDown: bool, offer: nat)
    ensures var s := VideoCallStart(onChannel, sender, sameCallsign, isDown, offer);
            var t := After(r, s);
            if onChannel && !sameCallsign && sender != r.peer.id && r.peer.isVideoCallActive
               && (r.peer.connection.NoConnection? || isDown)
            then t.peer.currentVideoPeerID == Some(sender) && !t.peer.connection.NoConnection? && t.ice.pending == []
            else t == r && Sends(r.peer, s) == []
  {
  }

  /**
   The end of a call on the browser's channel hangs up if the current peer sent it, and neither its own nor that of
   anybody else does.
   */
  lemma OnlyThePeerHangsUp(r: Room, peer: int, from: int)
    requires r.peer.currentVideoPeerID == Some(peer) != Some(r.peer.id)
    ensures var t := After(r, VideoCallEnd(true, Some(from)));
            if from == peer
            then t.peer.connection.NoConnection? && t.peer.currentVideoPeerID.None? && t.ice.pending == []
            else t == r
    ensures After(r, VideoCallEnd(false, Some(from))) == r
  {
  }

  /**
   An offer of the peer itself is answered on the connection there is, unless that connection was lost: then a new one
   takes its place.
   */
  lemma LostPeerIsSetUpAnew(p: Peer, peer: int, other: int, offer: nat, ok: bool)
    requires p.connection.Stable? && p.currentVideoPeerID == Some(peer) != Some(p.id)
    ensures var lost := After(Room(p, Ice(true, [], [], [], [])), LosePeer(other)).peer;
            && !SetsUpConnection(p, VideoOffer(peer, offer, ok))
            && (SetsUpConnection(lost, VideoOffer(peer, offer, ok)) <==> other == peer)
  {
  }

  /**
   A new connection is to the sender of the message that set it up. Otherwise the browser changes its peer only by
   losing it, by hanging up or by being hung up on.
   */
  lemma OnlySetupChangesThePeer(r: Room, s: Signal)
    ensures var t := After(r, s);
            if SetsUpConnection(r.peer, s) then
              t.peer.currentVideoPeerID == Some(s.sender) && !t.peer.connection.NoConnection?
            else if EndsCall(r.peer, s) || s.LeaveRoom? || s.LosePeer? then
              t.peer.currentVideoPeerID in {r.peer.currentVideoPeerID, None}
            else t.peer.currentVideoPeerID == r.peer.currentVideoPeerID
  {
  }

  /**
   A join of the peer that the browser is already connected to changes and sends nothing; one of anybody else does.
   */
  lemma OnlyThePeerIsConnectedAlready(p: Peer, peer: int, sender: int, offer: nat)
    requires p.isVideoCallActive && !p.connection.NoConnection? && p.currentVideoPeerID == Some(peer)
    requires sender != p.id
    ensures SetsUpConnection(p, VideoJoin(sender, None, true, offer)) <==> sender != peer
    ensures SetsUpConnection(p, VideoJoin(sender, None, false, offer))
  {
  }

  /** A browser is in a call since it entered the room or somebody else offered, until it leaves. */
  lemma InCallIff(r: Room, s: Signal)
    ensures After(r, s).peer.isVideoCallActive <==>
              !s.LeaveRoom?
              && (r.peer.isVideoCallActive || s.EnterRoom? || (s.VideoOffer? && s.sender != r.peer.id))
  {
  }

  /** An answer that nobody waits for changes nothing. */
  lemma StrayAnswerIsIgnored(r: Room, answer: nat)
    requires !r.peer.Waits()
    ensures After(r, VideoAnswer(answer)) == r
  {
  }

  /** While its offer is outstanding a browser offers again exactly if the connection counts as connected. */
  lemma UnansweredOfferIsReplacedIffConnected(p: Peer, peer: int, isConnected: bool, offer: nat)
    requires p.Waits() && p.currentVideoPeerID == Some(peer)
    ensures Sends(p, SwitchStream(isConnected, offer)) == if isConnected then [(peer, Offer(offer))] else []
  {
  }

  /** Switching the stream sends one more offer to the peer, and with its answer the two are paired as before. */
  lemma RenegotiationKeepsPairing(r: Room, peer: int, isConnected: bool, offer: nat)
    requires r.ice.Valid() && IsPaired(r, peer)
    ensures Sends(r.peer, SwitchStream(isConnected, offer)) == [(peer, Offer(offer))]
    ensures var t := After(r, SwitchStream(isConnected, offer));
            t.peer.connection == HaveLocalOffer(offer) && After(t, VideoAnswer(offer)) == r
  {
  }

  // ---- The object ----

  class VideoRoom {
    const myClientID: int
    var isVideoCallActive: bool
    var peerConnection: Connection
    var currentVideoPeerID: Option<int>
    /** peerConnection.remoteDescription is set. */
    var hasRemoteDescription: bool
    var pendingIceCandidates: seq<string>
    /** What addIceCandidate got, on the current connection. */
    var added: seq<string>
    /** What the websocket got, with the target of each message. */
    var sent: seq<(int, Message)>
    ghost var retired: seq<string>
    ghost var dropped: seq<string>

    function State(): Peer
      reads this`isVideoCallActive, this`peerConnection, this`currentVideoPeerID
    {
      Peer(myClientID, isVideoCallActive, peerConnection, currentVideoPeerID)
    }

    ghost function View(): Room
      reads this
    {
      Room(State(), Ice(hasRemoteDescription, pendingIceCandidates, added, retired, dropped))
    }

    ghost predicate Valid()
      reads this
    {
      View().ice.Valid() && (hasRemoteDescription ==> !peerConnection.NoConnection?)
    }

    constructor (id: int)
      ensures Valid() && View() == Room(Peer(id, false, NoConnection, None), Ice(false, [], [], [], [])) && sent == []
    {
      myClientID, isVideoCallActive, peerConnection, currentVideoPeerID := id, false, NoConnection, None;
      hasRemoteDescription, pendingIceCandidates, added, sent, retired, dropped := false, [], [], [], [], [];
    }

    /** flushPendingIceCandidates. */
    method FlushPendingIceCandidates()
      modifies this`pendingIceCandidates, this`added
      ensures if peerConnection.NoConnection? || !hasRemoteDescription
              then pendingIceCandidates == old(pendingIceCandidates) && added == old(added)
              else pendingIceCandidates == [] && added == old(added) + old(pendingIceCandidates)
    {
      if peerConnection.NoConnection? || !hasRemoteDescription {
        return;
      }
      while |pendingIceCandidates| > 0
        invariant added + pendingIceCandidates == old(added) + old(pendingIceCandidates)
        decreases |pendingIceCandidates|
      {
        var cand := pendingIceCandidates[0];
        pendingIceCandidates := pendingIceCandidates[1..];
        added := added + [cand];
      }
    }

    /** setupPeerConnection: any earlier connection is closed; an initiator offers at once. */
    method SetupPeerConnection(targetID: int, isInitiator: bool, offer: nat)
      modifies this
      ensures Valid() && View() == SetUp(old(View()), targetID, isInitiator, offer)
      ensures sent == if isInitiator then old(sent) + [(targetID, Offer(offer))] else old(sent)
    {
      retired, dropped := retired + added + pendingIceCandidates, dropped + pendingIceCandidates;
      currentVideoPeerID := Some(targetID);
      pendingIceCandidates := [];
      peerConnection, hasRemoteDescription, added := Stable, false, [];
      if isInitiator {
        peerConnection := HaveLocalOffer(offer);
        sent := sent + [(targetID, Offer(offer))];
      }
    }

    method HandleVideoCallStart(onChannel: bool, senderID: int, sameCallsign: bool, isDown: bool, offer: nat)
      requires Valid()
      modifies this
      ensures var s := VideoCallStart(onChannel, senderID, sameCallsign, isDown, offer);
              Valid() && View() == After(old(View()), s) && sent == old(sent) + Sends(old(State()), s)
    {
      if !onChannel {
        return;
      }
      if senderID != myClientID && !sameCallsign {
        if isVideoCallActive && (peerConnection.NoConnection? || isDown) {
          SetupPeerConnection(senderID, myClientID > senderID, offer);
        }
      }
    }

    /** handleVideoJoin; without `requestedTarget` the join goes to everybody on the channel. */
    method HandleVideoJoin(senderID: int, requestedTarget: Option<int>, isConnected: bool, offer: nat)
      requires Valid()
      modifies this
      ensures var s := VideoJoin(senderID, requestedTarget, isConnected, offer);
              Valid() && View() == After(old(View()), s) && sent == old(sent) + Sends(old(State()), s)
    {
      if senderID == myClientID {
        return;
      }
      if requestedTarget.Some? && requestedTarget.value != myClientID {
        return;
      }
      if !isVideoCallActive {
        return;
      }
      if !peerConnection.NoConnection? && isConnected && currentVideoPeerID == Some(senderID) {
        return;
      }
      SetupPeerConnection(senderID, requestedTarget == Some(myClientID) || myClientID > senderID, offer);
    }

    /** handleVideoCallEnd. */
    method HandleVideoCallEnd(onChannel: bool, senderID: Option<int>)
      requires Valid()
      modifies this
      ensures Valid() && View() == After(old(View()), VideoCallEnd(onChannel, senderID)) && sent == old(sent)
    {
      if !onChannel {
        return;
      }
      if senderID == Some(myClientID) {
        return;
      }
      if currentVideoPeerID.Some? && senderID.Some? && senderID.value != currentVideoPeerID.value {
        return;
      }
      retired, dropped := retired + added + pendingIceCandidates, dropped + pendingIceCandidates;
      peerConnection, hasRemoteDescription, added := NoConnection, false, [];
      currentVideoPeerID := None;
      pendingIceCandidates := [];
    }

    /** What startVideoCall and startScreenShare do to the call's variables. */
    method EnterVideoRoom()
      requires Valid()
      modifies this`isVideoCallActive
      ensures Valid() && View() == After(old(View()), EnterRoom)
    {
      isVideoCallActive := true;
    }

    /** endVideoCall: unlike a call ended from afar it leaves the waiting candidates where they are. */
    method EndVideoCall(isOpen: bool)
      requires Valid()
      modifies this
      ensures Valid() && View() == After(old(View()), LeaveRoom(isOpen)) && sent == old(sent)
    {
      if !isVideoCallActive && !isOpen {
        return;
      }
      isVideoCallActive := false;
      retired := retired + added;
      peerConnection, hasRemoteDescription, added := NoConnection, false, [];
      currentVideoPeerID := None;
    }

    /** onconnectionstatechange of the connection to `peerID`, in state disconnected or failed. */
    method HandleConnectionLoss(peerID: int)
      requires Valid()
      modifies this`currentVideoPeerID
      ensures Valid() && View() == After(old(View()), LosePeer(peerID))
    {
      if currentVideoPeerID == Some(peerID) {
        currentVideoPeerID := None;
      }
    }

    /** The end of switchStream: another offer to the current peer if the guard allows it. */
    method Renegotiate(isConnected: bool, offer: nat)
      requires Valid()
      modifies this
      ensures var s := SwitchStream(isConnected, offer);
              Valid() && View() == After(old(View()), s) && sent == old(sent) + Sends(old(State()), s)
    {
      if !peerConnection.NoConnection? {
        if currentVideoPeerID.Some? && (isConnected || peerConnection.Stable?) {
          peerConnection := HaveLocalOffer(offer);
          sent := sent + [(currentVideoPeerID.value, Offer(offer))];
        }
      }
    }

    /** The end of handleVideoOffer: the offer becomes the remote description and is answered. */
    method AnswerOffer(senderID: int, offer: nat)
      requires Valid() && peerConnection.Stable?
      modifies this
      ensures Valid() && View() == old(View()).(ice := old(View()).ice.Described())
      ensures sent == old(sent) + [(senderID, Answer(offer))]
    {
      hasRemoteDescription := true;
      FlushPendingIceCandidates();
      peerConnection := Stable;
      sent := sent + [(senderID, Answer(offer))];
    }

    /** handleVideoOffer; `rollbackOk` says whether the rollback succeeds. */
    method HandleVideoOffer(senderID: int, offer: nat, rollbackOk: bool)
      requires Valid()
      modifies this
      ensures var s := VideoOffer(senderID, offer, rollbackOk);
              Valid() && View() == After(old(View()), s) && sent == old(sent) + Sends(old(State()), s)
    {
      if senderID == myClientID {
        return;
      }
      if !isVideoCallActive {
        isVideoCallActive := true;
      }
      if peerConnection.HaveLocalOffer? {
        var isPolite := myClientID < senderID;
        if !isPolite {
          return;
        }
        if rollbackOk {
          peerConnection := Stable;
        } else {
          SetupPeerConnection(senderID, false, 0);
        }
      } else if peerConnection.NoConnection? || currentVideoPeerID != Some(senderID) {
        SetupPeerConnection(senderID, false, 0);
      }
      AnswerOffer(senderID, offer);
    }

    /** handleVideoAnswer: ignored unless a local offer is outstanding. */
    method HandleVideoAnswer(answer: nat)
      requires Valid()
      modifies this
      ensures Valid() && View() == After(old(View()), VideoAnswer(answer)) && sent == old(sent)
    {
      if peerConnection.NoConnection? {
        return;
      }
      if !peerConnection.HaveLocalOffer? {
        return;
      }
      hasRemoteDescription := true;
      peerConnection := Stable;
      FlushPendingIceCandidates();
    }

    /** handleVideoICE: a candidate waits until there is a remote description to add it to. */
    method HandleVideoICE(candidate: string)
      requires Valid()
      modifies this
      ensures Valid() && View() == After(old(View()), VideoIce(candidate)) && sent == old(sent)
    {
      if peerConnection.NoConnection? || !hasRemoteDescription {
        pendingIceCandidates := pendingIceCandidates + [candidate];
      } else {
        added := added + [candidate];
      }
    }
  }
}
