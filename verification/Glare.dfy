/**
 Offer collisions between two browsers (internal/web/static/js/radio.js): the offer and answer handlers over the
 signalling states of RTCPeerConnection (RFC 8829, section 3.2), and what every run of two paired peers keeps. Offers
 carry numbers in the place of session descriptions.
 */
module Glare {
  import opened Wrappers

  datatype Connection = NoConnection | Stable | HaveLocalOffer(offer: nat)

  datatype Message = Offer(number: nat) | Answer(number: nat)

  /** The variables of one browser. Identifiers are compared in JavaScript's string order; only the order matters. */
  datatype Peer = Peer(id: int, isVideoCallActive: bool, connection: Connection, currentVideoPeerID: Option<int>) {
    predicate Waits() {
      connection.HaveLocalOffer?
    }

    /** setupPeerConnection as answerer, and up to the offer as initiator: a new connection replaces the old one. */
    function Connected(target: int): Peer {
      this.(connection := Stable, currentVideoPeerID := Some(target))
    }

    /** A local offer is set, in a stable state or in place of an earlier local offer. */
    function Offering(number: nat): Peer {
      this.(connection := HaveLocalOffer(number))
    }

    /** switchStream's guard before it renegotiates; `isConnected` is connectionState === 'connected'. */
    predicate MayRenegotiate(isConnected: bool) {
      currentVideoPeerID.Some? && !connection.NoConnection? && (isConnected || connection.Stable?)
    }

    /** handleVideoOffer. If the rollback throws, a new connection takes its place. */
    function Offered(sender: int, number: nat, rollbackOk: bool): (Peer, Option<Message>) {
      if sender == id then (this, None)
      else
        var p := this.(isVideoCallActive := true);
        if Waits() && !(id < sender) then (p, None)
        else
          var q := if Waits() then (if rollbackOk then p.(connection := Stable) else p.Connected(sender))
                   else if connection.NoConnection? || currentVideoPeerID != Some(sender) then p.Connected(sender)
                   else p;
          (q, Some(Answer(number)))
    }

    /** handleVideoAnswer: ignored unless an offer is outstanding. */
    function Answered(number: nat): Peer {
      if Waits() then this.(connection := Stable) else this
    }

    function Received(sender: int, m: Message, rollbackOk: bool): (Peer, Option<Message>) {
      match m
      case Offer(n) => Offered(sender, n, rollbackOk)
      case Answer(n) => (Answered(n), None)
    }
  }

  // ---- Two paired peers ----

  /** `high` has the greater identifier. The relay keeps order; offers are numbered in the order they are made. */
  datatype Sys = Sys(high: Peer, low: Peer, toHigh: seq<Message>, toLow: seq<Message>, offers: nat)

  datatype Step =
    | Call(byHigh: bool)
    | Expect(byHigh: bool)
    | Renegotiate(byHigh: bool)
    | Deliver(atHigh: bool, rollbackOk: bool)
    | LoseConnection(atHigh: bool)

  function Of(s: Sys, high: bool): Peer {
    if high then s.high else s.low
  }

  /**
   A call sets up a connection with an offer, Expect one without, and Renegotiate offers on the existing connection.
   All are started only while no local offer is outstanding.
   */
  predicate Enabled(s: Sys, step: Step) {
    match step
    case Call(h) => !Of(s, h).Waits()
    case Expect(h) => !Of(s, h).Waits()
    case Renegotiate(h) => Of(s, h).connection.Stable? && Of(s, h).MayRenegotiate(true)
    case Deliver(h, _) => (if h then s.toHigh else s.toLow) != []
    case LoseConnection(_) => true
  }

  function Sent(s: Sys, byHigh: bool, p: Peer, m: Option<Message>): Sys {
    var out := if m.Some? then [m.value] else [];
    if byHigh then s.(high := p, toLow := s.toLow + out) else s.(low := p, toHigh := s.toHigh + out)
  }

  function Next(s: Sys, step: Step): Sys
    requires Enabled(s, step)
  {
    match step
    case Call(h) =>
      Sent(s.(offers := s.offers + 1), h, Of(s, h).Connected(Of(s, !h).id).Offering(s.offers), Some(Offer(s.offers)))
    case Expect(h) =>
      Sent(s, h, Of(s, h).Connected(Of(s, !h).id), None)
    case Renegotiate(h) =>
      Sent(s.(offers := s.offers + 1), h, Of(s, h).Offering(s.offers), Some(Offer(s.offers)))
    case Deliver(h, ok) =>
      var m := if h then s.toHigh[0] else s.toLow[0];
      var (p, reply) := Of(s, h).Received(Of(s, !h).id, m, ok);
      Sent(if h then s.(toHigh := s.toHigh[1..]) else s.(toLow := s.toLow[1..]), h, p, reply)
    case LoseConnection(h) =>
      Sent(s, h, Of(s, h).(currentVideoPeerID := None), None)
  }

  ghost predicate IsRun(states: seq<Sys>, steps: seq<Step>) {
    && |states| == |steps| + 1
    && Initial(states[0])
    && forall i :: 0 <= i < |steps| ==> Enabled(states[i], steps[i]) && states[i + 1] == Next(states[i], steps[i])
  }

  predicate Initial(s: Sys) {
    s.low.id < s.high.id && !s.high.Waits() && !s.low.Waits() && s.toHigh == [] && s.toLow == []
  }

  // ---- The reachable configurations ----

  /** The higher peer waits for an answer to its offer. */
  predicate HighWaits(s: Sys) {
    && s.high.Waits()
    && var a := s.high.connection.offer;
       if s.low.Waits() then
         var b := s.low.connection.offer;
         || (s.toHigh == [Offer(b)] && s.toLow == [Offer(a)])
         || (s.toHigh == [] && s.toLow == [Offer(a)])
         || (s.toHigh == [Answer(a), Offer(b)] && s.toLow == [])
         || (s.toHigh == [] && s.toLow == [Answer(b), Offer(a)])
         || (|s.toHigh| == 3 && s.toHigh[0].Offer? && s.toHigh[1..] == [Answer(a), Offer(b)] && s.toLow == [])
       else
         || (s.toHigh == [] && s.toLow == [Offer(a)])
         || (s.toHigh == [Answer(a)] && s.toLow == [])
         || (|s.toHigh| == 2 && s.toHigh[0].Offer? && s.toHigh[1] == Answer(a) && s.toLow == [])
  }

  /** The higher peer waits for nothing. */
  predicate HighRests(s: Sys) {
    && !s.high.Waits()
    && if s.low.Waits() then
         var b := s.low.connection.offer;
         (s.toHigh == [Offer(b)] && s.toLow == []) || (s.toHigh == [] && s.toLow == [Answer(b)])
       else s.toHigh == [] && s.toLow == []
  }

  predicate Inv(s: Sys) {
    && s.low.id < s.high.id
    && (HighWaits(s) || HighRests(s))
    && (s.high.Waits() ==> s.high.connection.offer < s.offers) && (s.low.Waits() ==> s.low.connection.offer < s.offers)
  }

  lemma CallKeepsInv(s: Sys, step: Step)
    requires Inv(s) && Enabled(s, step) && !step.Deliver?
    ensures Inv(Next(s, step))
  {
  }

  lemma DeliveryAtHighKeepsInv(s: Sys, ok: bool)
    requires Inv(s) && s.toHigh != []
    ensures Inv(Next(s, Deliver(true, ok)))
  {
  }

  lemma DeliveryAtLowKeepsInv(s: Sys, ok: bool)
    requires Inv(s) && s.toLow != []
    ensures Inv(Next(s, Deliver(false, ok)))
  {
  }

  lemma {:induction false} RunKeepsInv(states: seq<Sys>, steps: seq<Step>, i: nat)
    requires IsRun(states, steps) && i < |states|
    ensures Inv(states[i])
  {
    if i > 0 {
      RunKeepsInv(states, steps, i - 1);
      match steps[i - 1]
      case Deliver(h, ok) =>
        if h {
          DeliveryAtHighKeepsInv(states[i - 1], ok);
        } else {
          DeliveryAtLowKeepsInv(states[i - 1], ok);
        }
      case _ => CallKeepsInv(states[i - 1], steps[i - 1]);
    }
  }

  // ---- What every run keeps ----

  /**
   An answer arrives only at a peer that waits for exactly that answer: none is ignored, and none is for another
   offer.
   */
  lemma EveryAnswerMatches(states: seq<Sys>, steps: seq<Step>, i: nat)
    requires IsRun(states, steps) && i < |steps| && steps[i].Deliver?
    ensures var m := if steps[i].atHigh then states[i].toHigh[0] else states[i].toLow[0];
            m.Answer? ==> Of(states[i], steps[i].atHigh).connection == HaveLocalOffer(m.number)
  {
    RunKeepsInv(states, steps, i);
  }

  /** The higher peer's offer is always accepted and answered, whatever the lower peer was doing. */
  lemma HigherOfferIsAnswered(states: seq<Sys>, steps: seq<Step>, i: nat)
    requires IsRun(states, steps) && i < |steps| && steps[i].Deliver? && !steps[i].atHigh && states[i].toLow[0].Offer?
    ensures states[i + 1].low.connection.Stable?
    ensures states[i + 1].toHigh == states[i].toHigh + [Answer(states[i].toLow[0].number)]
  {
    RunKeepsInv(states, steps, i);
  }

  /** The lower peer's offer is dropped exactly when it meets an outstanding offer of the higher one. */
  lemma LowerOfferIsDroppedIffHighWaits(s: Sys, ok: bool)
    requires Inv(s) && s.toHigh != [] && s.toHigh[0].Offer?
    ensures var t := Next(s, Deliver(true, ok));
            if s.high.Waits() then t.toLow == s.toLow && t.high.connection == s.high.connection
            else t.toLow == s.toLow + [Answer(s.toHigh[0].number)] && t.high.connection.Stable?
  {
  }

  /** A peer that waits always has a message in flight to move things on; with none in flight both have settled. */
  lemma NoDeadlock(states: seq<Sys>, steps: seq<Step>, i: nat)
    requires IsRun(states, steps) && i < |states|
    ensures states[i].toHigh == [] && states[i].toLow == [] ==> !states[i].high.Waits() && !states[i].low.Waits()
  {
    RunKeepsInv(states, steps, i);
  }

  // ---- How soon it settles ----

  /** Deliveries still to come: the messages in flight, and an answer for each offer that will be accepted. */
  function Remaining(s: Sys): nat {
    |s.toHigh| + |s.toLow|
    + (if s.toLow != [] && s.toLow[|s.toLow| - 1].Offer? then 1 else 0)
    + (if s.toHigh != [] && s.toHigh[|s.toHigh| - 1].Offer?
      && (!s.high.Waits() || Answer(s.high.connection.offer) in s.toHigh) then 1 else 0)
  }

  lemma DeliveryAtHighReduces(s: Sys, ok: bool)
    requires Inv(s) && s.toHigh != []
    ensures Remaining(Next(s, Deliver(true, ok))) == Remaining(s) - 1
  {
  }

  lemma DeliveryAtLowReduces(s: Sys, ok: bool)
    requires Inv(s) && s.toLow != []
    ensures Remaining(Next(s, Deliver(false, ok))) == Remaining(s) - 1
  {
  }

  lemma DeliveryReducesRemaining(s: Sys, high: bool, ok: bool)
    requires Inv(s) && Enabled(s, Deliver(high, ok))
    ensures Remaining(Next(s, Deliver(high, ok))) == Remaining(s) - 1
  {
    if high {
      DeliveryAtHighReduces(s, ok);
    } else {
      DeliveryAtLowReduces(s, ok);
    }
  }

  lemma AtMostFourRemain(s: Sys)
    requires Inv(s)
    ensures Remaining(s) <= 4
    ensures Remaining(s) == 0 <==> s.toHigh == [] && s.toLow == []
  {
  }

  lemma {:induction false} CountsDown(r: seq<int>, i: nat, j: nat)
    requires i <= j < |r| && forall k :: i <= k < j ==> r[k + 1] == r[k] - 1
    ensures r[i] - r[j] == j - i
  {
    if i < j {
      CountsDown(r, i, j - 1);
      assert r[j - 1 + 1] == r[j - 1] - 1;
    }
  }

  /**
   If no new offer is started from state i on, any schedule of deliveries has at most four steps, and it ends with no
   message in flight exactly when it delivers all that remain.
   */
  lemma SettlesInFourDeliveries(states: seq<Sys>, steps: seq<Step>, i: nat, j: nat)
    requires IsRun(states, steps) && i <= j < |states|
    requires forall k :: i <= k < j ==> steps[k].Deliver?
    ensures j - i == Remaining(states[i]) - Remaining(states[j]) <= 4
    ensures j - i == Remaining(states[i]) <==> states[j].toHigh == [] && states[j].toLow == []
  {
    var r := seq(|states|, k requires 0 <= k < |states| => Remaining(states[k]));
    forall k | i <= k < j ensures r[k + 1] == r[k] - 1 {
      RunKeepsInv(states, steps, k);
      DeliveryReducesRemaining(states[k], steps[k].atHigh, steps[k].rollbackOk);
    }
    CountsDown(r, i, j);
    RunKeepsInv(states, steps, i);
    RunKeepsInv(states, steps, j);
    AtMostFourRemain(states[i]);
    AtMostFourRemain(states[j]);
  }

  // ---- The guard of switchStream ----

  /** switchStream replaces a peer's local offer, as its guard allows on a connected connection. */
  function Reoffered(s: Sys, byHigh: bool): Sys {
    Sent(s.(offers := s.offers + 1), byHigh, Of(s, byHigh).Offering(s.offers), Some(Offer(s.offers)))
  }

  predicate Mismatches(p: Peer, inbox: seq<Message>) {
    p.Waits() && inbox != [] && inbox[0].Answer? && inbox[0].number != p.connection.offer
  }

  /** The next message for one of the peers is an answer to an offer other than its outstanding one. */
  predicate Mismatch(s: Sys) {
    Mismatches(s.high, s.toHigh) || Mismatches(s.low, s.toLow)
  }

  ghost predicate Delivers(s: Sys, t: Sys) {
    exists high, ok :: Enabled(s, Deliver(high, ok)) && t == Next(s, Deliver(high, ok))
  }

  /** Nothing happens but deliveries, in any order. */
  ghost predicate IsDelivery(states: seq<Sys>) {
    |states| > 0 && forall i :: 0 <= i < |states| - 1 ==> Delivers(states[i], states[i + 1])
  }

  lemma {:induction false} DeliveriesKeepInv(path: seq<Sys>, i: nat)
    requires IsDelivery(path) && Inv(path[0]) && i < |path|
    ensures Inv(path[i])
  {
    if i > 0 {
      DeliveriesKeepInv(path, i - 1);
      var s := path[i - 1];
      assert Delivers(s, path[i - 1 + 1]);
      var high, ok :| Enabled(s, Deliver(high, ok)) && path[i] == Next(s, Deliver(high, ok));
      if high {
        DeliveryAtHighKeepsInv(s, ok);
      } else {
        DeliveryAtLowKeepsInv(s, ok);
      }
    }
  }

  /** An offer made in a stable state is one of the steps of a run, so nothing can go wrong with it. */
  lemma StableOfferIsSafe(s: Sys, byHigh: bool, path: seq<Sys>)
    requires Inv(s) && Of(s, byHigh).connection.Stable? && Of(s, byHigh).currentVideoPeerID.Some?
    requires IsDelivery(path) && path[0] == Reoffered(s, byHigh)
    ensures !Mismatch(path[|path| - 1])
  {
    assert Reoffered(s, byHigh) == Next(s, Renegotiate(byHigh));
    CallKeepsInv(s, Renegotiate(byHigh));
    DeliveriesKeepInv(path, |path| - 1);
  }

  function AtHigh(s: Sys): Sys
    requires s.toHigh != []
  {
    Next(s, Deliver(true, true))
  }

  function AtLow(s: Sys): Sys
    requires s.toLow != []
  {
    Next(s, Deliver(false, true))
  }

  lemma DeliverOneMore(path: seq<Sys>, high: bool) returns (longer: seq<Sys>)
    requires IsDelivery(path) && Enabled(path[|path| - 1], Deliver(high, true))
    ensures longer == path + [if high then AtHigh(path[|path| - 1]) else AtLow(path[|path| - 1])] && IsDelivery(longer)
  {
    var s := path[|path| - 1];
    var t := Next(s, Deliver(high, true));
    longer := path + [t];
    assert Delivers(s, t);
    forall i | 0 <= i < |longer| - 1 ensures Delivers(longer[i], longer[i + 1]) {
      if i < |path| - 1 {
        assert Delivers(path[i], path[i + 1]);
      }
    }
  }

  /** The lower peer has already answered, or answers next: its answer is for the offer that was replaced. */
  lemma AnswerToReplacedOffer(s: Sys) returns (path: seq<Sys>)
    requires Inv(s) && s.high.Waits() && (s.toLow == [] || s.toLow[0].Offer?)
    ensures IsDelivery(path) && path[0] == Reoffered(s, true) && Mismatch(path[|path| - 1])
  {
    path := [Reoffered(s, true)];
    if s.toLow != [] {
      path := DeliverOneMore(path, false);
    }
    if s.toHigh != [] && s.toHigh[0].Offer? {
      path := DeliverOneMore(path, true);
    }
  }

  /** The lower peer still has an answer coming, then the offer that was replaced. */
  lemma AnswerBeforeReplacedOffer(s: Sys) returns (path: seq<Sys>)
    requires Inv(s) && s.high.Waits() && s.toLow != [] && s.toLow[0].Answer?
    ensures IsDelivery(path) && path[0] == Reoffered(s, true) && Mismatch(path[|path| - 1])
  {
    path := [Reoffered(s, true)];
    path := DeliverOneMore(path, false);
    path := DeliverOneMore(path, false);
  }

  /**
   Renegotiating on the higher peer is safe, whatever is delivered next, if and only if its connection is stable. The
   guard also lets it through while an offer is outstanding on a connected connection; then the answer to the replaced
   offer is taken for the answer to the new one.
   */
  lemma RenegotiationIsSafeIffStable(s: Sys, isConnected: bool)
    requires Inv(s) && s.high.MayRenegotiate(isConnected)
    ensures s.high.connection.Stable? <==>
              forall path :: IsDelivery(path) && path[0] == Reoffered(s, true) ==> !Mismatch(path[|path| - 1])
  {
    if s.high.connection.Stable? {
      forall path | IsDelivery(path) && path[0] == Reoffered(s, true) ensures !Mismatch(path[|path| - 1]) {
        StableOfferIsSafe(s, true, path);
      }
    } else {
      var path := [s];
      if s.toLow != [] && s.toLow[0].Answer? {
        path := AnswerBeforeReplacedOffer(s);
      } else {
        path := AnswerToReplacedOffer(s);
      }
      assert IsDelivery(path) && path[0] == Reoffered(s, true) && Mismatch(path[|path| - 1]);
    }
  }

  // ---- The lower peer ----

  predicate AllOffers(messages: seq<Message>) {
    forall i :: 0 <= i < |messages| ==> messages[i].Offer?
  }

  /**
   The higher peer's offer overtakes whatever the lower one has offered: it arrives, is answered, and all is settled.
   */
  predicate Overtaken(s: Sys) {
    && s.low.id < s.high.id
    && if s.low.Waits() then s.high.Waits() && s.toLow == [Offer(s.high.connection.offer)] && AllOffers(s.toHigh)
       else if s.high.Waits() then
         && s.toLow == [] && s.toHigh != [] && AllOffers(s.toHigh[..|s.toHigh| - 1])
         && s.toHigh[|s.toHigh| - 1] == Answer(s.high.connection.offer)
       else s.toLow == [] && s.toHigh == []
  }

  lemma DeliveryKeepsOvertaken(s: Sys, high: bool, ok: bool)
    requires Overtaken(s) && Enabled(s, Deliver(high, ok))
    ensures Overtaken(Next(s, Deliver(high, ok)))
  {
  }

  lemma {:induction false} DeliveriesKeepOvertaken(path: seq<Sys>, i: nat)
    requires IsDelivery(path) && Overtaken(path[0]) && i < |path|
    ensures Overtaken(path[i])
  {
    if i > 0 {
      DeliveriesKeepOvertaken(path, i - 1);
      var s := path[i - 1];
      assert Delivers(s, path[i - 1 + 1]);
      var high, ok :| Enabled(s, Deliver(high, ok)) && path[i] == Next(s, Deliver(high, ok));
      DeliveryKeepsOvertaken(s, high, ok);
    }
  }

  lemma OvertakenIsSafe(s: Sys, path: seq<Sys>)
    requires Inv(s) && s.low.Waits() && s.toLow != [] && s.toLow[0].Offer?
    requires IsDelivery(path) && path[0] == Reoffered(s, false)
    ensures !Mismatch(path[|path| - 1])
  {
    assert Overtaken(path[0]);
    DeliveriesKeepOvertaken(path, |path| - 1);
    NoMismatchWhenOvertaken(path[|path| - 1]);
  }

  lemma NoMismatchWhenOvertaken(s: Sys)
    requires Overtaken(s)
    ensures !Mismatch(s)
  {
  }

  /** No offer of the higher peer is about to arrive: the replaced offer is answered, and the answer comes too late. */
  lemma ReplacedLowOfferMismatches(s: Sys) returns (path: seq<Sys>)
    requires Inv(s) && s.low.Waits() && !(s.toLow != [] && s.toLow[0].Offer?)
    ensures IsDelivery(path) && path[0] == Reoffered(s, false) && Mismatch(path[|path| - 1])
  {
    path := [Reoffered(s, false)];
    if s.toLow == [] {
      path := DeliverOneMore(path, true);
      if |s.toHigh| >= 2 {
        path := DeliverOneMore(path, true);
      }
      if |s.toHigh| == 3 {
        path := DeliverOneMore(path, true);
      }
    }
  }

  /**
   Renegotiating on the lower peer is safe, whatever is delivered next, if and only if its connection is stable or the
   next message for it is the higher peer's own offer, which overtakes every offer of the lower one.
   */
  lemma LowerRenegotiationIsSafeIff(s: Sys, isConnected: bool)
    requires Inv(s) && s.low.MayRenegotiate(isConnected)
    ensures s.low.connection.Stable? || (s.toLow != [] && s.toLow[0].Offer?) <==>
              forall path :: IsDelivery(path) && path[0] == Reoffered(s, false) ==> !Mismatch(path[|path| - 1])
  {
    if s.low.connection.Stable? {
      forall path | IsDelivery(path) && path[0] == Reoffered(s, false) ensures !Mismatch(path[|path| - 1]) {
        StableOfferIsSafe(s, false, path);
      }
    } else if s.toLow != [] && s.toLow[0].Offer? {
      forall path | IsDelivery(path) && path[0] == Reoffered(s, false) ensures !Mismatch(path[|path| - 1]) {
        OvertakenIsSafe(s, path);
      }
    } else {
      var path := ReplacedLowOfferMismatches(s);
      assert IsDelivery(path) && path[0] == Reoffered(s, false) && Mismatch(path[|path| - 1]);
    }
  }
}
