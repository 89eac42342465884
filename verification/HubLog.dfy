/** Everything the hub broadcasts, hears and writes down, in order, and what an observer can conclude from it. */
module HubLog {
  import opened Bytes
  import opened Messages
  import opened Wrappers

  datatype Scope = OnChannel(id: int) | Everyone

  datatype Entry =
    | Sent(scope: Scope, message: Message)
    | Heard(channelID: int, payload: seq<byte>)
    | Wrote(channelID: int, entry: ChatMessage)

  /**
   The observer's picture: channels announced busy, the latest talker of each channel, the payloads accepted since that
   talker's latest user_talking, all completed recordings and the payloads each was announced after, all chat entries,
   and whether every user_stopped so far named the latest talker.
   */
  datatype Seen = Seen(busy: set<int>, talker: map<int, string>, heard: map<int, seq<seq<byte>>>,
                       recorded: seq<VoiceRecording>, takes: seq<seq<seq<byte>>>, chat: map<int, seq<ChatMessage>>,
                       stopsMatch: bool) {
    /** After idle, user_stopped and channel_activity(false). */
    function Stopped(id: int, user: string): Seen {
      this.(stopsMatch := stopsMatch && id in talker && talker[id] == user, busy := busy - {id})
    }

    /** After user_talking and channel_activity(true). */
    function Talking(id: int, user: string): Seen {
      this.(talker := talker[id := user], heard := heard[id := []], busy := busy + {id})
    }

    function Recorded(rec: Option<VoiceRecording>): Seen {
      if rec.Some?
      then this.(recorded := recorded + [rec.value], takes := takes + [Lookup(heard, rec.value.channelID)])
      else this
    }

    function Chatted(id: int, m: ChatMessage): Seen {
      this.(chat := chat[id := Lookup(chat, id) + [m]])
    }

    function Hearing(id: int, payload: seq<byte>): Seen {
      this.(heard := heard[id := Lookup(heard, id) + [payload]])
    }
  }

  const NOTHING := Seen({}, map[], map[], [], [], map[], true)

  function Lookup<T>(m: map<int, seq<T>>, id: int): seq<T> {
    if id in m then m[id] else []
  }

  function Observe(seen: Seen, e: Entry): Seen {
    match e
    case Sent(_, ChannelActivity(id, isBusy)) => seen.(busy := if isBusy then seen.busy + {id} else seen.busy - {id})
    case Sent(_, UserTalking(id, user, _)) => seen.(talker := seen.talker[id := user], heard := seen.heard[id := []])
    case Sent(_, UserStopped(id, user, _)) =>
      seen.(stopsMatch := seen.stopsMatch && id in seen.talker && seen.talker[id] == user)
    case Sent(_, TransmissionRecorded(r)) => seen.Recorded(Some(r))
    case Sent(_, _) => seen
    case Heard(id, payload) => seen.Hearing(id, payload)
    case Wrote(id, m) => seen.Chatted(id, m)
  }

  function Replay(log: seq<Entry>): Seen {
    if log == [] then NOTHING else Observe(Replay(log[..|log| - 1]), log[|log| - 1])
  }

  function Logged(log: seq<Entry>, e: Entry): (r: seq<Entry>)
    ensures r == log + [e]
    ensures Replay(r) == Observe(Replay(log), e)
  {
    assert (log + [e])[..|log|] == log;
    log + [e]
  }

  predicate StopMatches(seen: Seen, e: Entry) {
    e.Sent? && e.message.UserStopped? ==>
      e.message.channelID in seen.talker && seen.talker[e.message.channelID] == e.message.userID
  }

  /** If entry `j` is a user_stopped, it names the user of the latest user_talking on its channel. */
  predicate StopNamesTalker(log: seq<Entry>, j: nat)
    requires j < |log|
  {
    StopMatches(Replay(log[..j]), log[j])
  }

  lemma ObserveStop(seen: Seen, e: Entry)
    ensures Observe(seen, e).stopsMatch == (seen.stopsMatch && StopMatches(seen, e))
  {
  }

  /** The observer's flag spelled out over log positions. */
  lemma {:induction false} StopsMatchMeans(log: seq<Entry>)
    ensures Replay(log).stopsMatch <==> forall j :: 0 <= j < |log| ==> StopNamesTalker(log, j)
  {
    if log != [] {
      var n := |log| - 1;
      StopsMatchMeans(log[..n]);
      ObserveStop(Replay(log[..n]), log[n]);
      forall j | 0 <= j < n ensures StopNamesTalker(log[..n], j) == StopNamesTalker(log, j) {
        assert log[..n][..j] == log[..j];
      }
      assert StopNamesTalker(log, n) == StopMatches(Replay(log[..n]), log[n]);
    }
  }
}
