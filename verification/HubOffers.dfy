/**
 What one client is offered while the hub sends: its two queues, the broadcasts as the log has them, messages to it
 alone, and signals.
 */
module HubOffers {
  import opened Clients
  import opened HubLog
  import opened Messages
  import opened Wrappers
  import HubMail
  import HubNews

  type Mail = HubMail.Mail

  // ---- Queues ----

  /** The frames are offered to the ordinary queue, one after the other. */
  function Offered(box: Mailbox, frames: seq<Frame>): Mailbox {
    if frames == [] then box else Offered(box, frames[..|frames| - 1]).Enqueue(frames[|frames| - 1])
  }

  /** The ordinary queue takes them all, the oldest making room; a closed client takes none. */
  lemma {:induction false} OfferedIsPushAll(box: Mailbox, frames: seq<Frame>)
    ensures Offered(box, frames) == if box.isClosed then box else box.(send := PushAll(box.send, frames, 64))
  {
    if frames != [] {
      OfferedIsPushAll(box, frames[..|frames| - 1]);
    }
  }

  lemma {:induction false} OfferedAppend(box: Mailbox, a: seq<Frame>, b: seq<Frame>)
    ensures Offered(Offered(box, a), b) == Offered(box, a + b)
  {
    if b == [] {
      assert a + b == a;
    } else {
      OfferedAppend(box, a, b[..|b| - 1]);
      assert (a + b)[..|a + b| - 1] == a + b[..|b| - 1];
    }
  }

  lemma {:induction false} PriorityCommutes(box: Mailbox, f: Frame, frames: seq<Frame>)
    ensures Offered(box.EnqueuePriority(f), frames) == Offered(box, frames).EnqueuePriority(f)
  {
    if frames != [] {
      PriorityCommutes(box, f, frames[..|frames| - 1]);
    }
  }

  // ---- Broadcasts ----

  /** What a client on channel `id` gets of an entry of the log. */
  function PublicOf(e: Entry, id: int): seq<Frame> {
    match e
    case Sent(OnChannel(ch), msg) => if ch == id then [Json(msg)] else []
    case Sent(Everyone, msg) => [Json(msg)]
    case Heard(_, _) => []
    case Wrote(_, _) => []
  }

  function Public(entries: seq<Entry>, id: int): seq<Frame> {
    if entries == [] then [] else Public(entries[..|entries| - 1], id) + PublicOf(entries[|entries| - 1], id)
  }

  lemma {:induction false} PublicAppend(a: seq<Entry>, b: seq<Entry>, id: int)
    ensures Public(a + b, id) == Public(a, id) + Public(b, id)
  {
    if b == [] {
      assert a + b == a;
    } else {
      var front, last := b[..|b| - 1], b[|b| - 1];
      PublicAppend(a, front, id);
      assert (a + b)[..|a + b| - 1] == a + front && (a + b)[|a + b| - 1] == last;
      HubNews.Regroup(Public(a, id), Public(front, id), PublicOf(last, id));
    }
  }

  /** From `m0` to `m1`, client `d` on channel `id` is offered exactly the broadcasts that are logged for it. */
  ghost predicate Tells(m0: Mail, m1: Mail, d: Client, id: int) {
    && d in m0.boxes && d in m1.boxes && m0.log <= m1.log
    && m1.boxes[d] == Offered(m0.boxes[d], Public(m1.log[|m0.log|..], id))
  }

  lemma TellsOn(m0: Mail, m1: Mail, m2: Mail, d: Client, id: int)
    requires Tells(m0, m1, d, id) && Tells(m1, m2, d, id)
    ensures Tells(m0, m2, d, id)
  {
    var a, b := m1.log[|m0.log|..], m2.log[|m1.log|..];
    assert m2.log[|m0.log|..] == a + b;
    PublicAppend(a, b, id);
    OfferedAppend(m0.boxes[d], Public(a, id), Public(b, id));
  }

  lemma OneEntry(e: Entry, id: int, box: Mailbox)
    ensures Public([e], id) == PublicOf(e, id)
    ensures PublicOf(e, id) == [] ==> Offered(box, Public([e], id)) == box
    ensures |PublicOf(e, id)| == 1 ==> Offered(box, Public([e], id)) == box.Enqueue(PublicOf(e, id)[0])
  {
    assert [e][..0] == [];
    assert Public([e], id) == Public([], id) + PublicOf(e, id);
    if |PublicOf(e, id)| == 1 {
      assert PublicOf(e, id)[..0] == [];
    }
  }

  lemma LoggedEntry(m0: Mail, m1: Mail, d: Client, id: int, e: Entry)
    requires d in m0.boxes && d in m1.boxes && m1.log == m0.log + [e]
    requires PublicOf(e, id) == [] || |PublicOf(e, id)| == 1
    requires m1.boxes[d] == if PublicOf(e, id) == [] then m0.boxes[d] else m0.boxes[d].Enqueue(PublicOf(e, id)[0])
    ensures Tells(m0, m1, d, id)
  {
    OneEntry(e, id, m0.boxes[d]);
    assert m1.log[|m0.log|..] == [e];
  }

  lemma BroadcastTells(m: Mail, targets: set<Client>, ch: int, msg: Message, d: Client, id: int)
    requires d in m.boxes && (d in targets <==> ch == id)
    ensures Tells(m, m.Broadcast(targets, ch, msg), d, id)
  {
    LoggedEntry(m, m.Broadcast(targets, ch, msg), d, id, Sent(OnChannel(ch), msg));
  }

  lemma BroadcastAllTells(m: Mail, everyone: set<Client>, msg: Message, d: Client, id: int)
    requires d in m.boxes && d in everyone
    ensures Tells(m, m.BroadcastAll(everyone, msg), d, id)
  {
    LoggedEntry(m, m.BroadcastAll(everyone, msg), d, id, Sent(Everyone, msg));
  }

  lemma NoteTells(m: Mail, e: Entry, d: Client, id: int)
    requires d in m.boxes && !e.Sent?
    ensures Tells(m, m.Note(e), d, id)
  {
    LoggedEntry(m, m.Note(e), d, id, e);
  }

  lemma UnchangedTells(m0: Mail, m1: Mail, d: Client, id: int)
    requires d in m0.boxes && d in m1.boxes && m1.log == m0.log && m1.boxes[d] == m0.boxes[d]
    ensures Tells(m0, m1, d, id)
  {
    assert m1.log[|m0.log|..] == [];
  }

  // ---- The hub's announcements ----

  lemma IdleTells(m: Mail, targets: set<Client>, everyone: set<Client>, ch: int, userID: string, callsign: string,
                  d: Client, id: int)
    requires d in m.boxes && (d in targets <==> ch == id) && d in everyone
    ensures Tells(m, m.AnnounceIdle(targets, everyone, ch, userID, callsign), d, id)
  {
    var m1 := m.Broadcast(targets, ch, FloorStatusChange(ch, Idle, "", "", ""));
    var m2 := m1.Broadcast(targets, ch, UserStopped(ch, userID, callsign));
    BroadcastTells(m, targets, ch, FloorStatusChange(ch, Idle, "", "", ""), d, id);
    BroadcastTells(m1, targets, ch, UserStopped(ch, userID, callsign), d, id);
    TellsOn(m, m1, m2, d, id);
    BroadcastAllTells(m2, everyone, ChannelActivity(ch, false), d, id);
    TellsOn(m, m2, m2.BroadcastAll(everyone, ChannelActivity(ch, false)), d, id);
  }

  lemma RecordingTells(m: Mail, targets: set<Client>, ch: int, rec: Option<VoiceRecording>, d: Client, id: int)
    requires d in m.boxes && (d in targets <==> ch == id)
    ensures Tells(m, m.AnnounceRecording(targets, ch, rec), d, id)
  {
    if rec.Some? {
      BroadcastTells(m, targets, ch, TransmissionRecorded(rec.value), d, id);
    } else {
      UnchangedTells(m, m, d, id);
    }
  }

  // ---- Signals ----

  function Signalled(box: Mailbox, signal: Option<Message>): Mailbox {
    if signal.Some? then box.EnqueuePriority(Json(signal.value)) else box
  }

  /** The same, and the priority queue is offered at most one message. */
  ghost predicate TellsAnd(m0: Mail, m1: Mail, d: Client, id: int, signal: Option<Message>) {
    && d in m0.boxes && d in m1.boxes && m0.log <= m1.log
    && m1.boxes[d] == Signalled(Offered(m0.boxes[d], Public(m1.log[|m0.log|..], id)), signal)
  }

  lemma SignalTells(m0: Mail, m1: Mail, c: Client, msg: Message, d: Client, id: int, signal: Option<Message>)
    requires TellsAnd(m0, m1, d, id, signal) && (d == c ==> signal.None?)
    ensures TellsAnd(m0, m1.SendPriority(c, msg), d, id, if d == c then Some(msg) else signal)
  {
  }

  lemma TellsAndOn(m0: Mail, m1: Mail, m2: Mail, d: Client, id: int, signal: Option<Message>)
    requires TellsAnd(m0, m1, d, id, signal) && Tells(m1, m2, d, id)
    ensures TellsAnd(m0, m2, d, id, signal)
  {
    var a, b := m1.log[|m0.log|..], m2.log[|m1.log|..];
    assert m2.log[|m0.log|..] == a + b;
    PublicAppend(a, b, id);
    OfferedAppend(m0.boxes[d], Public(a, id), Public(b, id));
    if signal.Some? {
      PriorityCommutes(Offered(m0.boxes[d], Public(a, id)), Json(signal.value), Public(b, id));
    }
  }

  lemma TalkingTells(m0: Mail, m1: Mail, targets: set<Client>, everyone: set<Client>, ch: int, c: Client, m: Member,
                     d: Client, id: int, signal: Option<Message>)
    requires TellsAnd(m0, m1, d, id, signal) && (d == c ==> signal.None?)
    requires (d in targets <==> ch == id) && d in everyone
    ensures TellsAnd(m0, m1.AnnounceTalking(targets, everyone, ch, c, m), d, id,
              if d == c then Some(FloorStatusChange(ch, Granted, "", m.callsign, m.id)) else signal)
  {
    var s := if d == c then Some(FloorStatusChange(ch, Granted, "", m.callsign, m.id)) else signal;
    var m2 := m1.SendPriority(c, FloorStatusChange(ch, Granted, "", m.callsign, m.id));
    SignalTells(m0, m1, c, FloorStatusChange(ch, Granted, "", m.callsign, m.id), d, id, signal);
    var m3 := m2.Broadcast(targets, ch, UserTalking(ch, m.id, m.callsign));
    BroadcastTells(m2, targets, ch, UserTalking(ch, m.id, m.callsign), d, id);
    TellsAndOn(m0, m2, m3, d, id, s);
    BroadcastAllTells(m3, everyone, ChannelActivity(ch, true), d, id);
    TellsAndOn(m0, m3, m3.BroadcastAll(everyone, ChannelActivity(ch, true)), d, id, s);
  }

  // ---- Frames for one client ----

  /** Client `d` is offered exactly these frames, and no signal. */
  ghost predicate Gets(m0: Mail, m1: Mail, d: Client, frames: seq<Frame>) {
    d in m0.boxes && d in m1.boxes && m1.boxes[d] == Offered(m0.boxes[d], frames)
  }

  lemma GetsOn(m0: Mail, m1: Mail, m2: Mail, d: Client, a: seq<Frame>, b: seq<Frame>)
    requires Gets(m0, m1, d, a) && Gets(m1, m2, d, b)
    ensures Gets(m0, m2, d, a + b)
  {
    OfferedAppend(m0.boxes[d], a, b);
  }

  lemma TellsGets(m0: Mail, m1: Mail, d: Client, id: int, entries: seq<Entry>)
    requires Tells(m0, m1, d, id) && m1.log == m0.log + entries
    ensures Gets(m0, m1, d, Public(entries, id))
  {
    assert m1.log[|m0.log|..] == entries;
  }

  lemma SendGets(m: Mail, c: Client, msg: Message, d: Client)
    requires d in m.boxes
    ensures Gets(m, m.SendJSON(c, msg), d, if d == c then [Json(msg)] else [])
  {
    assert [Json(msg)][..0] == [];
  }
}
