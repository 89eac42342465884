/** Channel numbers: the search for a free one, the channel list, and who ends up where. */
module HubChannels {
  import Messages
  import Clients
  import Floor
  import opened HubCore
  import opened HubRuns

  function Numbers(n: nat): (r: set<int>)
    ensures forall i :: i in r <==> 1 <= i <= n
  {
    if n == 0 then {} else Numbers(n - 1) + {n}
  }

  lemma {:induction false} NumbersCount(n: nat)
    ensures |Numbers(n)| == n
  {
    if n > 0 {
      NumbersCount(n - 1);
      assert n !in Numbers(n - 1);
    }
  }

  lemma SubsetOfSameSize(a: set<int>, b: set<int>)
    requires a <= b && |a| == |b|
    ensures a == b
  {
    assert |b - a| == |b| - |a|;
    assert b == a + (b - a);
  }

  /** Channel numbers are 1..n. */
  ghost predicate Contiguous(k: Core) {
    k.channels.Keys == Numbers(|k.channels|)
  }

  predicate Increasing(list: seq<Messages.ChannelInfo>) {
    forall i, j :: 0 <= i < j < |list| ==> list[i].id < list[j].id
  }

  /** The list holds exactly the channels numbered up to `n`. */
  ghost predicate Exact(k: Core, list: seq<Messages.ChannelInfo>, n: nat) {
    && (forall e <- list :: 1 <= e.id <= n && e.id in k.channels && e == InfoOf(k, e.id))
    && (forall id :: 1 <= id <= n && id in k.channels ==> InfoOf(k, id) in list)
  }

  lemma {:induction false} ListIsSortedAndExact(k: Core, n: nat)
    requires forall id <- k.channels :: k.channels[id].definition.id == id
    ensures Increasing(ChannelInfos(k, n)) && Exact(k, ChannelInfos(k, n), n)
  {
    if n > 0 {
      ListIsSortedAndExact(k, n - 1);
      var front, list := ChannelInfos(k, n - 1), ChannelInfos(k, n);
      forall i | 0 <= i < |front| ensures front[i].id < n {
        assert front[i] in front;
      }
    }
  }

  /** GetChannelList shows every channel exactly when the numbers are contiguous from 1. */
  lemma ListIsCompleteIffContiguous(k: Core)
    requires forall id <- k.channels :: k.channels[id].definition.id == id
    ensures (forall id <- k.channels :: InfoOf(k, id) in GetChannelList(k)) <==> Contiguous(k)
  {
    var n, list := |k.channels|, GetChannelList(k);
    ListIsSortedAndExact(k, n);
    NumbersCount(n);
    if forall id <- k.channels :: InfoOf(k, id) in list {
      forall id | id in k.channels ensures id in Numbers(n) {
        assert InfoOf(k, id) in list && InfoOf(k, id).id == id;
      }
      SubsetOfSameSize(k.channels.Keys, Numbers(n));
    }
  }

  /**
   The creator ends up alone on the new channel, whose number was free; every other channel keeps its state, but for
   the creator leaving its own.
   */
  lemma CreatorEndsOnNewChannel(k: Core, c: Clients.Client, name: string, isPrivate: bool, password: string)
    requires Placed(k) && c in k.members && name != ""
    ensures var id, home, r := NewChannelID(k), k.members[c].channelID, CreateChannel(k, c, name, isPrivate, password);
            && id !in k.channels && r.members[c].channelID == id
            && var left := k.channels[home].(floor := k.channels[home].floor.WithoutSubscriber(c).0);
               var def := Floor.ChannelDef(id, name, isPrivate, password);
               r.channels == k.channels[home := left]
                                       [id := ChannelState(def, Floor.NewFloor(k.totDuration).WithSubscriber(c))]
  {
    var id, k1 := NewChannelID(k), AddChannel(k, name, isPrivate, password);
    assert JudgeSwitch(k1, c, id, password).Enter?;
  }

  /**
   A switch takes the client to the channel exactly when the channel exists and is open to it: it is there already, or
   the channel is public, or the password is right. Nobody else moves, and a refused switch changes nothing.
   */
  lemma SwitchSucceedsIffAllowed(k: Core, c: Clients.Client, id: int, password: string)
    requires Placed(k) && c in k.members
    ensures var r := SwitchChannel(k, c, id, password);
            && r.members.Keys == k.members.Keys && (forall d <- k.members :: d != c ==> r.members[d] == k.members[d])
            && (r.members[c].channelID == id <==>
                  id in k.channels && (k.members[c].channelID == id || !k.channels[id].definition.isPrivate
                                       || k.channels[id].definition.password == password))
            && (r.members[c].channelID != id ==> r == k)
  {
  }

  /** From contiguous numbers the search takes the next one. */
  lemma CreationKeepsContiguous(k: Core, name: string, isPrivate: bool, password: string)
    requires Contiguous(k)
    ensures NewChannelID(k) == |k.channels| + 1
    ensures Contiguous(AddChannel(k, name, isPrivate, password))
  {
  }

  /** No step but a creation adds or removes a channel. */
  lemma OnlyCreateAddsChannels(k: Core, e: Event)
    requires Enabled(k, e) && !e.Create?
    ensures Next(k, e).channels.Keys == k.channels.Keys
  {
  }

  lemma StepKeepsContiguous(k: Core, e: Event)
    requires Placed(k) && Contiguous(k) && Enabled(k, e)
    ensures Contiguous(Next(k, e))
  {
    if e.Create? {
      if e.name != "" {
        CreationKeepsContiguous(k, e.name, e.isPrivate, e.password);
        assert Next(k, e).channels.Keys == AddChannel(k, e.name, e.isPrivate, e.password).channels.Keys;
        SameKeysSameSize(AddChannel(k, e.name, e.isPrivate, e.password), Next(k, e));
      }
    } else {
      OnlyCreateAddsChannels(k, e);
      SameKeysSameSize(k, Next(k, e));
    }
  }

  lemma SameKeysSameSize(a: Core, b: Core)
    requires a.channels.Keys == b.channels.Keys && Contiguous(a)
    ensures Contiguous(b)
  {
  }

  lemma {:induction false} EveryStateBy(good: seq<bool>, i: nat)
    requires i < |good| && good[0] && forall j :: 0 <= j < |good| - 1 ==> good[j] ==> good[j + 1]
    ensures good[i]
  {
    if i > 0 {
      EveryStateBy(good, i - 1);
      assert good[i - 1] ==> good[i - 1 + 1];
    }
  }

  lemma RunStepKeepsContiguous(cores: seq<Core>, events: seq<Event>, i: nat)
    requires IsRun(cores, events) && cores[0].channels != map[] && i < |events| && Contiguous(cores[i])
    ensures Contiguous(cores[i + 1])
  {
    RunKeepsPlacement(cores, events, i);
    StepKeepsContiguous(cores[i], events[i]);
  }

  lemma NumbersStayContiguous(cores: seq<Core>, events: seq<Event>, i: nat)
    requires IsRun(cores, events) && cores[0].channels != map[] && Contiguous(cores[0]) && i < |cores|
    ensures Contiguous(cores[i])
  {
    var good := seq(|cores|, j requires 0 <= j < |cores| => Contiguous(cores[j]));
    forall j | 0 <= j < |good| - 1 && good[j] ensures good[j + 1] {
      RunStepKeepsContiguous(cores, events, j);
    }
    EveryStateBy(good, i);
  }

  /** In every run of a hub configured with channels 1..n, GetChannelList shows every channel exactly once, in order. */
  lemma ListIsAlwaysComplete(cores: seq<Core>, events: seq<Event>, i: nat)
    requires IsRun(cores, events) && cores[0].channels != map[] && Contiguous(cores[0]) && i < |cores|
    ensures Increasing(GetChannelList(cores[i]))
    ensures forall id <- cores[i].channels :: InfoOf(cores[i], id) in GetChannelList(cores[i])
  {
    NumbersStayContiguous(cores, events, i);
    RunKeepsPlacement(cores, events, i);
    ListIsCompleteIffContiguous(cores[i]);
    ListIsSortedAndExact(cores[i], |cores[i].channels|);
  }
}
