/** The UDP gateway of internal/roip/udp_server.go: a second source of audio packets, read through one reused buffer. */
module Roip {
  import opened Bytes
  import opened Messages
  import Clients
  import HubCore
  import HubDelivery
  import HubMail
  import HubRuns
  import HubTyping
  import Hub
  import Protocol

  type Mail = HubMail.Mail

  const BUFFER_SIZE: nat := 4096

  datatype Arrival = Datagram(peer: string, data: seq<byte>) | ReadError

  /** What a read leaves of a datagram: the rest of a longer one is lost. */
  function Read(data: seq<byte>): seq<byte> {
    if |data| <= BUFFER_SIZE then data else data[..BUFFER_SIZE]
  }

  /** A datagram of up to 4096 bytes is read whole; of a longer one, its first 4096 bytes. */
  lemma OnlyLongDatagramsAreCut(data: seq<byte>)
    ensures Read(data) <= data && (Read(data) == data <==> |data| <= 4096) && (|data| > 4096 ==> |Read(data)| == 4096)
  {
  }

  /** The sender of a datagram that is long enough is remembered, whether or not its header is valid. */
  predicate Introduces(a: Arrival, peer: string) {
    a.Datagram? && a.peer == peer && |a.data| >= Protocol.AUDIO_HEADER_SIZE
  }

  predicate IsAudio(a: Arrival) {
    a.Datagram? && Protocol.ParseAudioHeader(Read(a.data)).Some?
  }

  function ChannelOf(a: Arrival): int
    requires IsAudio(a)
  {
    Protocol.ParseAudioHeader(Read(a.data)).value.0.channelID
  }

  function PeersAfter(peers: set<string>, arrivals: seq<Arrival>): set<string> {
    if arrivals == [] then peers
    else
      var before, a := PeersAfter(peers, arrivals[..|arrivals| - 1]), arrivals[|arrivals| - 1];
      if a.Datagram? && Introduces(a, a.peer) then before + {a.peer} else before
  }

  function MailAfter(mail: Mail, k: HubCore.Core, arrivals: seq<Arrival>): Mail {
    if arrivals == [] then mail
    else
      var before, a := MailAfter(mail, k, arrivals[..|arrivals| - 1]), arrivals[|arrivals| - 1];
      if IsAudio(a) then HubMail.RoIPAudio(before, k, ChannelOf(a), Read(a.data)) else before
  }

  class UDPServer {
    const hub: Hub.Hub?
    var peers: set<string>

    constructor (hub: Hub.Hub?)
      ensures this.hub == hub && peers == {}
    {
      this.hub, peers := hub, {};
    }

    /** ReadFromUDP: as much of the datagram as fits lands at the start of the buffer. */
    static method ReadFromUDP(buf: array<byte>, data: seq<byte>) returns (n: nat)
      requires buf.Length == BUFFER_SIZE
      modifies buf
      ensures n == |Read(data)| <= buf.Length && buf[..n] == Read(data)
    {
      n := if |data| <= BUFFER_SIZE then |data| else BUFFER_SIZE;
      Protocol.Copy(buf, 0, data[..n]);
      assert buf[0..0 + n] == buf[..n];
    }

    /** The loop over the datagrams that arrive before the server is stopped. */
    method ListenLoop(arrivals: seq<Arrival>)
      modifies this
      modifies if hub == null then {} else {hub}
      ensures peers == PeersAfter(old(peers), arrivals)
      ensures hub != null ==> hub.State() == old(hub.State())
      ensures hub != null ==> hub.Post() == MailAfter(old(hub.Post()), hub.State(), arrivals)
    {
      var buf := new byte[BUFFER_SIZE];
      for i := 0 to |arrivals|
        invariant peers == PeersAfter(old(peers), arrivals[..i])
        invariant hub != null ==> hub.State() == old(hub.State())
        invariant hub != null ==> hub.Post() == MailAfter(old(hub.Post()), hub.State(), arrivals[..i])
      {
        assert arrivals[..i + 1][..i] == arrivals[..i];
        match arrivals[i]
        case ReadError =>
        case Datagram(peer, data) =>
          var n := ReadFromUDP(buf, data);
          if n >= Protocol.AUDIO_HEADER_SIZE {
            var packet := new byte[n];
            Protocol.Copy(packet, 0, buf[..n]);
            assert packet[..] == packet[0..0 + n] == Read(data);
            peers := peers + {peer};
            var header := Protocol.ParseAudioHeader(packet[..]);
            if header.Some? && hub != null {
              hub.HandleRoIPAudio(header.value.0.channelID, packet[..]);
            }
          }
      }
      assert arrivals[..|arrivals|] == arrivals;
    }
  }

  /** A peer is known exactly if it was before or sent a datagram of at least eight bytes. */
  lemma {:induction false} PeersAreTheIntroduced(peers: set<string>, arrivals: seq<Arrival>, peer: string)
    ensures peer in PeersAfter(peers, arrivals) <==>
              peer in peers || exists i :: 0 <= i < |arrivals| && Introduces(arrivals[i], peer)
  {
    if arrivals != [] {
      var n := |arrivals| - 1;
      PeersAreTheIntroduced(peers, arrivals[..n], peer);
      assert forall i :: 0 <= i < n ==> arrivals[..n][i] == arrivals[i];
    }
  }

  /**
   Whatever arrives on the gateway, the log does not change and every queue still leaves with the right message types.
   */
  lemma {:induction false} GatewayKeepsTyping(mail: Mail, k: HubCore.Core, arrivals: seq<Arrival>)
    requires HubTyping.AllTyped(mail)
    ensures HubTyping.AllTyped(MailAfter(mail, k, arrivals)) && MailAfter(mail, k, arrivals).log == mail.log
  {
    if arrivals != [] {
      var n := |arrivals| - 1;
      GatewayKeepsTyping(mail, k, arrivals[..n]);
      if IsAudio(arrivals[n]) && ChannelOf(arrivals[n]) in k.channels {
        HubTyping.DeliverKeepsTyping(MailAfter(mail, k, arrivals[..n]), k.Subs(ChannelOf(arrivals[n])),
          Audio(Read(arrivals[n].data)));
      }
    }
  }

  /** The packets of `arrivals` for channel `id`, in order of arrival. */
  function PacketsFor(arrivals: seq<Arrival>, id: int): seq<Frame> {
    if arrivals == [] then []
    else
      var before, a := PacketsFor(arrivals[..|arrivals| - 1], id), arrivals[|arrivals| - 1];
      if IsAudio(a) && ChannelOf(a) == id then before + [Audio(Read(a.data))] else before
  }

  /** Each client is offered every gateway packet for its own channel once, in order, and no other. */
  lemma {:induction false} GatewayDeliversInOrder(mail: Mail, k: HubCore.Core, arrivals: seq<Arrival>,
                                                  c: Clients.Client)
    requires HubRuns.Placed(k) && mail.boxes.Keys == k.members.Keys && c in k.members && !mail.boxes[c].isClosed
    ensures var after := MailAfter(mail, k, arrivals);
            && after.boxes.Keys == mail.boxes.Keys
            && var packets := PacketsFor(arrivals, k.members[c].channelID);
               after.boxes[c] ==
                 mail.boxes[c].(send := Clients.PushAll(mail.boxes[c].send, packets, Clients.SEND_BUFFER_SIZE))
  {
    if arrivals != [] {
      var n := |arrivals| - 1;
      var front, a, id := arrivals[..n], arrivals[n], k.members[c].channelID;
      GatewayDeliversInOrder(mail, k, front, c);
      if IsAudio(a) {
        HubDelivery.GatewayReachesChannelOnce(MailAfter(mail, k, front), k, ChannelOf(a), Read(a.data), c);
        assert (PacketsFor(front, id) + [Audio(Read(a.data))])[..|PacketsFor(front, id)|] == PacketsFor(front, id);
      }
    }
  }
}
