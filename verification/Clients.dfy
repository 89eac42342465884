/** A connected radio user and its two bounded outgoing queues (internal/radio/client.go). */
module Clients {
  import opened Bytes
  import opened Messages
  import Protocol

  const SEND_BUFFER_SIZE: nat := 64
  const HIGH_PRI_SIZE: nat := 64

  /** A frame offered to a bounded queue: appended, and the oldest frame makes room when the queue is full. */
  function Push<T>(queue: seq<T>, frame: T, capacity: nat): (r: seq<T>)
    requires 0 < capacity
  {
    if |queue| < capacity then queue + [frame]
    else if |queue[1..]| < capacity then queue[1..] + [frame]
    else queue[1..]
  }

  function PushAll<T>(queue: seq<T>, frames: seq<T>, capacity: nat): (r: seq<T>)
    requires 0 < capacity
  {
    if frames == [] then queue
    else Push(PushAll(queue, frames[..|frames| - 1], capacity), frames[|frames| - 1], capacity)
  }

  /** The last `n` elements, or all of them. */
  function Suffix<T>(s: seq<T>, n: nat): (r: seq<T>) {
    if |s| <= n then s else s[|s| - n..]
  }

  lemma SuffixAppend<T>(s: seq<T>, x: T, n: nat)
    requires 0 < n
    ensures Suffix(s + [x], n) == Push(Suffix(s, n), x, n)
    ensures Suffix(Suffix(s, n) + [x], n) == Suffix(s + [x], n)
  {
  }

  /** One producer and no consumer: the queue holds exactly the last `capacity` frames offered. */
  lemma {:induction false} QueueHoldsLastFrames<T>(frames: seq<T>, capacity: nat)
    requires 0 < capacity
    ensures PushAll([], frames, capacity) == Suffix(frames, capacity)
  {
    if frames == [] {
    } else {
      var front, last := frames[..|frames| - 1], frames[|frames| - 1];
      QueueHoldsLastFrames(front, capacity);
      SuffixAppend(front, last, capacity);
      assert front + [last] == frames;
    }
  }

  datatype Mailbox = Mailbox(highPri: seq<Frame>, send: seq<Frame>, isClosed: bool) {
    function Enqueue(f: Frame): Mailbox {
      if isClosed then this else this.(send := Push(send, f, SEND_BUFFER_SIZE))
    }

    function EnqueuePriority(f: Frame): Mailbox {
      if isClosed then this else this.(highPri := Push(highPri, f, HIGH_PRI_SIZE))
    }

    function EnqueueTimes(f: Frame, n: nat): Mailbox {
      if n == 0 then this else EnqueueTimes(f, n - 1).Enqueue(f)
    }
  }

  /** The fields of a client that only its own messages change. */
  datatype Member = Member(id: string, callsign: string, role: string, channelID: int)

  class Client {
    const id: string
    var callsign: string
    var role: string
    var currentChannelID: int
    var highPri: seq<Frame>
    var send: seq<Frame>
    var isClosed: bool

    constructor (id: string, callsign: string)
      ensures Profile() == Member(id, callsign, "Operator", 1)
      ensures Queues() == Mailbox([], [], false)
    {
      this.id, this.callsign, this.role, this.currentChannelID := id, callsign, "Operator", 1;
      highPri, send, isClosed := [], [], false;
    }

    function Profile(): Member
      reads this`callsign, this`role, this`currentChannelID
    {
      Member(id, callsign, role, currentChannelID)
    }

    function Queues(): Mailbox
      reads this`highPri, this`send, this`isClosed
    {
      Mailbox(highPri, send, isClosed)
    }

    method Enqueue(data: Frame)
      modifies this`send
      ensures Queues() == old(Queues()).Enqueue(data)
    {
      if isClosed {
        return;
      }
      if |send| < SEND_BUFFER_SIZE {
        send := send + [data];
      } else {
        if |send| > 0 {
          send := send[1..];
        }
        if |send| < SEND_BUFFER_SIZE {
          send := send + [data];
        }
      }
    }

    method EnqueuePriority(data: Frame)
      modifies this`highPri
      ensures Queues() == old(Queues()).EnqueuePriority(data)
    {
      if isClosed {
        return;
      }
      if |highPri| < HIGH_PRI_SIZE {
        highPri := highPri + [data];
      } else {
        if |highPri| > 0 {
          highPri := highPri[1..];
        }
        if |highPri| < HIGH_PRI_SIZE {
          highPri := highPri + [data];
        }
      }
    }

    method Close()
      modifies this`isClosed
      ensures Queues() == old(Queues()).(isClosed := true)
    {
      if isClosed {
        return;
      }
      isClosed := true;
    }
  }

  /** Offers one frame to each of a set of clients, in any order (a range over a Go map). */
  method EnqueueToAll(targets: set<Client>, frame: Frame)
    modifies targets`send
    ensures forall c <- targets :: c.Queues() == old(c.Queues()).Enqueue(frame)
  {
    var rest := targets;
    while rest != {}
      invariant rest <= targets
      invariant forall c <- rest :: c.Queues() == old(c.Queues())
      invariant forall c <- targets - rest :: c.Queues() == old(c.Queues()).Enqueue(frame)
    {
      var c :| c in rest;
      c.Enqueue(frame);
      rest := rest - {c};
    }
  }

  datatype WsType = TextMessage | BinaryMessage

  /** WritePump's choice for a frame taken from `send`. */
  function MessageType(message: seq<byte>): WsType {
    if |message| >= Protocol.AUDIO_HEADER_SIZE && message[0] == Protocol.AUDIO_MAGIC_0
      && message[1] == Protocol.AUDIO_MAGIC_1
    then BinaryMessage else TextMessage
  }

  /** The bytes of a frame; of a JSON envelope only its opening brace matters. */
  predicate Marshals(f: Frame, wire: seq<byte>) {
    match f
    case Json(_) => |wire| > 0 && wire[0] == 0x7B
    case Audio(data) => wire == data
  }

  /** A packet is sent as binary exactly when the server's parser accepts it, a JSON envelope always as text. */
  lemma FramesAreTypedCorrectly(f: Frame, wire: seq<byte>)
    requires Marshals(f, wire)
    ensures f.Json? ==> MessageType(wire) == TextMessage
    ensures f.Audio? ==> (MessageType(wire) == BinaryMessage <==> Protocol.ParseAudioHeader(f.data).Some?)
  {
  }
}
