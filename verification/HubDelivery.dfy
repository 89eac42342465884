/** Audio delivery: who gets a packet, and how often. */
module HubDelivery {
  import opened Bytes
  import opened Messages
  import opened Clients
  import opened HubCore
  import opened HubRuns
  import HubMail
  import HubSystem
  import Protocol
  import AudioSession

  type Mail = HubMail.Mail

  lemma EnqueueOnce(box: Mailbox, f: Frame)
    ensures box.EnqueueTimes(f, 1) == box.Enqueue(f)
    ensures box.EnqueueTimes(f, 0) == box
  {
  }

  /** Bit 2 of the packet's flags byte. */
  predicate AsksEveryone(data: seq<byte>) {
    |data| > 3 && data[3] / 4 % 2 == 1
  }

  /** The hub's test reads that bit of the packet. */
  lemma AllCallIsBitTwo(k: Core, c: Client, data: seq<byte>)
    requires c in k.members && Accepts(k, c, data)
    ensures |data| >= 8
    ensures Protocol.IsAllCall(Protocol.ParseAudioHeaderQuick(data).value.flags) <==> data[3] / 4 % 2 == 1
  {
  }

  /**
   An accepted All-Call, a packet with bit 2 of its flags set, is enqueued exactly once to every registered client but
   its sender. Without the placement invariant a client subscribed to several channels would get it several times, and
   one subscribed to none not at all.
   */
  lemma AllCallReachesEveryoneOnce(mail: Mail, k: Core, c: Client, data: seq<byte>, d: Client)
    requires Placed(k) && mail.boxes.Keys == k.members.Keys && c in k.members && d in k.members
    requires Accepts(k, c, data) && AsksEveryone(data)
    ensures var after := HubMail.BinaryAudio(mail, k, c, data);
            && after.boxes.Keys == mail.boxes.Keys
            && after.boxes[d] == if d == c then mail.boxes[d] else mail.boxes[d].Enqueue(Audio(data))
  {
    AllCallIsBitTwo(k, c, data);
    PlacementOfClient(k, d);
    EnqueueOnce(mail.boxes[d], Audio(data));
    assert HubMail.Subscriptions(k, d) == {k.members[d].channelID};
  }

  /**
   Any other accepted packet is enqueued exactly once to each other client of the sender's channel, and to nobody
   else.
   */
  lemma PacketReachesChannelOnce(mail: Mail, k: Core, c: Client, data: seq<byte>, d: Client)
    requires Placed(k) && mail.boxes.Keys == k.members.Keys && c in k.members && d in k.members
    requires Accepts(k, c, data) && !AsksEveryone(data)
    ensures var after := HubMail.BinaryAudio(mail, k, c, data);
            && after.boxes.Keys == mail.boxes.Keys
            && after.boxes[d] == if d != c && k.members[d].channelID == k.members[c].channelID
                                 then mail.boxes[d].Enqueue(Audio(data)) else mail.boxes[d]
  {
    AllCallIsBitTwo(k, c, data);
  }

  /** A rejected packet changes nothing: no queue, no buffer, no log entry. */
  lemma RejectedPacketChangesNothing(mail: Mail, k: Core, c: Client, data: seq<byte>)
    requires c in k.members && !Accepts(k, c, data)
    ensures BinaryAudio(k, c, data) == k && HubMail.BinaryAudio(mail, k, c, data) == mail
  {
  }

  /** Gateway audio reaches each client of the channel exactly once, the speaker included, and touches nothing else. */
  lemma GatewayReachesChannelOnce(mail: Mail, k: Core, id: int, data: seq<byte>, d: Client)
    requires Placed(k) && mail.boxes.Keys == k.members.Keys && d in k.members
    ensures var after := HubMail.RoIPAudio(mail, k, id, data);
            && after.boxes.Keys == mail.boxes.Keys && after.log == mail.log
            && after.boxes[d] ==
               if k.members[d].channelID == id then mail.boxes[d].Enqueue(Audio(data)) else mail.boxes[d]
  {
  }

  /**
   A packet is accepted only with the sender's own channel in its one-byte channel field, so it is never routed to
   another channel, and a client on a channel beyond 255 is never heard.
   */
  lemma PacketsStayOnOwnChannel(k: Core, c: Client, data: seq<byte>)
    requires Placed(k) && c in k.members
    ensures Accepts(k, c, data) <==>
              && Protocol.ParseAudioHeader(data).Some?
              && Protocol.ParseAudioHeader(data).value.0.channelID == k.members[c].channelID
              && k.channels[k.members[c].channelID].floor.speaker == c
    ensures Accepts(k, c, data) ==> 0 <= k.members[c].channelID < 256
  {
  }

  /**
   The browser writes its channel number modulo 256, so a speaker's own packets are accepted exactly when the number of
   its channel fits in one byte.
   */
  lemma BrowserIsHeardIffChannelFits(k: Core, c: Client, flags: byte, seqNum: int, payload: seq<byte>)
    requires Placed(k) && c in k.members && k.channels[k.members[c].channelID].floor.speaker == c
    ensures var id := k.members[c].channelID;
            Accepts(k, c, AudioSession.JsPacket(id, flags, seqNum, payload)) <==> 0 <= id < 256
  {
  }

  /**
   In every run: an accepted packet is appended exactly once, the oldest frame making room on a full queue, for every
   registered client but its sender if it is an All-Call, else for every other client of the sender's channel. A client
   whose pump has closed it gets nothing, though it is still registered; nobody else's queues change.
   */
  lemma RunDeliversOnce(cores: seq<Core>, mails: seq<Mail>, events: seq<Event>, i: nat, d: Client)
    requires HubSystem.IsSystemRun(cores, mails, events) && i < |events| && events[i].Packet? && d in cores[i].members
    requires Accepts(cores[i], events[i].client, events[i].data)
    ensures var k, c, data := cores[i], events[i].client, events[i].data;
            var after := HubSystem.NextMail(mails[i], k, events[i]);
            && d in mails[i].boxes && after.boxes.Keys == mails[i].boxes.Keys
            && var box := mails[i].boxes[d];
               after.boxes[d] ==
                 if d != c && !box.isClosed && (AsksEveryone(data) || k.members[d].channelID == k.members[c].channelID)
                 then box.(send := Push(box.send, Audio(data), 64)) else box
  {
    RunKeepsPlacement(cores, events, i);
    HubSystem.RunKeepsBoxes(cores, mails, events, i);
    var k, c, data := cores[i], events[i].client, events[i].data;
    AllCallIsBitTwo(k, c, data);
    if AsksEveryone(data) {
      AllCallReachesEveryoneOnce(mails[i], k, c, data, d);
    } else {
      PacketReachesChannelOnce(mails[i], k, c, data, d);
    }
  }
}
