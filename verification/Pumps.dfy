/**
 Client.enqueue, enqueuePriority, Close and WritePump interleaved one channel operation at a time: any number of
 producers under the read lock, Close under the write lock, and the pump as the only consumer, which takes no lock.
 */
module Pumps {
  import opened Messages
  import Clients

  const CAPACITY := Clients.SEND_BUFFER_SIZE

  datatype Lane = High | Low

  datatype Removal = Removal(frame: Frame, consumed: bool)

  /** A bounded Go channel with its history: every frame put in, and every frame removed, by the pump or by eviction. */
  datatype Queue = Queue(frames: seq<Frame>, isClosed: bool, put: seq<Frame>, removed: seq<Removal>) {
    function Added(f: Frame): Queue {
      this.(frames := frames + [f], put := put + [f])
    }

    function Taken(consumed: bool): Queue
      requires frames != []
    {
      this.(frames := frames[1..], removed := removed + [Removal(frames[0], consumed)])
    }
  }

  datatype ProducerPc = Entered | TrySend | Evict | Retry
  datatype Producer = Producer(lane: Lane, frame: Frame, pc: ProducerPc)

  datatype Closer = NoCloser | Locked | FlagSet | HighClosed

  datatype PumpPc = Poll | Wait | Stopped

  /** `producers` are the calls that hold the read lock. `faulted` records a Go panic. */
  datatype Sys = Sys(high: Queue, low: Queue, isClosed: bool, producers: map<nat, Producer>, closer: Closer,
                     pump: PumpPc, faulted: bool) {
    function Lane(lane: Lane): Queue {
      if lane.High? then high else low
    }

    function WithLane(lane: Lane, q: Queue): Sys {
      if lane.High? then this.(high := q) else this.(low := q)
    }

    function Goto(p: nat, pc: ProducerPc): Sys
      requires p in producers
    {
      this.(producers := producers[p := producers[p].(pc := pc)])
    }

    function Returned(p: nat): Sys {
      this.(producers := producers - {p})
    }
  }

  datatype Step =
    | Enter(p: nat, lane: Lane, frame: Frame)
    | Advance(p: nat)
    | Lock
    | CloseStep
    | PumpPoll
    | PumpTake(lane: Lane)
    | PumpTick
    | PumpSeesClosed(lane: Lane)
    | PumpFails

  const NEW_QUEUE := Queue([], false, [], [])

  const INIT := Sys(NEW_QUEUE, NEW_QUEUE, false, map[], NoCloser, Poll, false)

  predicate Enabled(s: Sys, step: Step) {
    match step
    case Enter(p, _, _) => p !in s.producers && s.closer.NoCloser?
    case Advance(p) => p in s.producers
    case Lock => s.closer.NoCloser? && s.producers == map[]
    case CloseStep => !s.closer.NoCloser?
    case PumpPoll => s.pump.Poll?
    case PumpTake(lane) => s.pump.Wait? && s.Lane(lane).frames != []
    case PumpTick => s.pump.Wait?
    case PumpSeesClosed(lane) => s.pump.Wait? && s.Lane(lane).isClosed && s.Lane(lane).frames == []
    case PumpFails => !s.pump.Stopped?
  }

  /** One channel operation of an enqueue call. A send on a closed channel panics. */
  function AdvanceProducer(s: Sys, p: nat): Sys
    requires p in s.producers
  {
    var Producer(lane, frame, pc) := s.producers[p];
    var q := s.Lane(lane);
    match pc
    case Entered => if s.isClosed then s.Returned(p) else s.Goto(p, TrySend)
    case TrySend =>
      if q.isClosed then s.(faulted := true)
      else if |q.frames| < CAPACITY then s.WithLane(lane, q.Added(frame)).Returned(p)
      else s.Goto(p, Evict)
    case Evict => (if q.frames != [] then s.WithLane(lane, q.Taken(false)) else s).Goto(p, Retry)
    case Retry =>
      if q.isClosed then s.(faulted := true)
      else if |q.frames| < CAPACITY then s.WithLane(lane, q.Added(frame)).Returned(p)
      else s.Returned(p)
  }

  /** Close under the write lock; closing a closed channel panics. */
  function AdvanceCloser(s: Sys): Sys {
    match s.closer
    case NoCloser => s
    case Locked => if s.isClosed then s.(closer := NoCloser) else s.(isClosed := true, closer := FlagSet)
    case FlagSet =>
      if s.high.isClosed then s.(faulted := true) else s.(high := s.high.(isClosed := true), closer := HighClosed)
    case HighClosed =>
      if s.low.isClosed then s.(faulted := true) else s.(low := s.low.(isClosed := true), closer := NoCloser)
  }

  function Next(s: Sys, step: Step): Sys
    requires Enabled(s, step)
  {
    match step
    case Enter(p, lane, frame) => s.(producers := s.producers[p := Producer(lane, frame, Entered)])
    case Advance(p) => AdvanceProducer(s, p)
    case Lock => s.(closer := Locked)
    case CloseStep => AdvanceCloser(s)
    case PumpPoll =>
      if s.high.frames != [] then s.(high := s.high.Taken(true))
      else if s.high.isClosed then s.(pump := Stopped)
      else s.(pump := Wait)
    case PumpTake(lane) => s.WithLane(lane, s.Lane(lane).Taken(true)).(pump := Poll)
    case PumpTick => s.(pump := Poll)
    case PumpSeesClosed(_) => s.(pump := Stopped)
    case PumpFails => s.(pump := Stopped)
  }

  ghost predicate IsPath(states: seq<Sys>, steps: seq<Step>) {
    && |states| == |steps| + 1
    && forall k :: 0 <= k < |steps| ==> Enabled(states[k], steps[k]) && states[k + 1] == Next(states[k], steps[k])
  }

  ghost predicate IsRun(states: seq<Sys>, steps: seq<Step>) {
    IsPath(states, steps) && states[0] == INIT
  }

  function FramesOf(removed: seq<Removal>): (r: seq<Frame>)
    ensures |r| == |removed|
  {
    seq(|removed|, i requires 0 <= i < |removed| => removed[i].frame)
  }

  /** What the pump wrote to the socket, in order. */
  function Consumed(removed: seq<Removal>): seq<Frame> {
    if removed == [] then []
    else
      var n := |removed| - 1;
      Consumed(removed[..n]) + if removed[n].consumed then [removed[n].frame] else []
  }

  predicate Subsequence<T(==)>(a: seq<T>, b: seq<T>) {
    a == [] || (b != [] &&
      (Subsequence(a, b[..|b| - 1]) || (a[|a| - 1] == b[|b| - 1] && Subsequence(a[..|a| - 1], b[..|b| - 1]))))
  }

  ghost predicate QueueInv(q: Queue) {
    && |q.frames| <= CAPACITY
    && FramesOf(q.removed) + q.frames == q.put
  }

  ghost predicate Inv(s: Sys) {
    && QueueInv(s.high) && QueueInv(s.low)
    && !s.faulted
    && (s.producers != map[] ==> s.closer.NoCloser?)
    && (forall p <- s.producers :: !s.producers[p].pc.Entered? ==> !s.isClosed)
    && match s.closer
       case NoCloser => s.high.isClosed == s.low.isClosed == s.isClosed
       case Locked => s.high.isClosed == s.low.isClosed == s.isClosed
       case FlagSet => s.isClosed && !s.high.isClosed && !s.low.isClosed
       case HighClosed => s.isClosed && s.high.isClosed && !s.low.isClosed
  }

  lemma AddedKeepsInv(q: Queue, f: Frame)
    requires QueueInv(q) && |q.frames| < CAPACITY
    ensures QueueInv(q.Added(f))
  {
  }

  lemma TakenKeepsInv(q: Queue, consumed: bool)
    requires QueueInv(q) && q.frames != []
    ensures QueueInv(q.Taken(consumed))
  {
  }

  lemma StepKeepsInv(s: Sys, step: Step)
    requires Inv(s) && Enabled(s, step)
    ensures Inv(Next(s, step))
  {
    match step
    case Advance(p) =>
      var q := s.Lane(s.producers[p].lane);
      if |q.frames| < CAPACITY { AddedKeepsInv(q, s.producers[p].frame); }
      if q.frames != [] { TakenKeepsInv(q, false); }
    case PumpPoll => if s.high.frames != [] { TakenKeepsInv(s.high, true); }
    case PumpTake(lane) => TakenKeepsInv(s.Lane(lane), true);
    case _ =>
  }

  /** In every run neither queue passes 64 frames, nothing is sent on or closes a closed channel. */
  lemma {:induction false} RunKeepsInv(states: seq<Sys>, steps: seq<Step>, k: nat)
    requires IsRun(states, steps) && k < |states|
    ensures Inv(states[k])
    ensures |states[k].high.frames| <= 64 && |states[k].low.frames| <= 64 && !states[k].faulted
  {
    if k > 0 {
      RunKeepsInv(states, steps, k - 1);
      StepKeepsInv(states[k - 1], steps[k - 1]);
    }
  }

  lemma {:induction false} SubsequenceOfLonger<T>(a: seq<T>, b: seq<T>, c: seq<T>)
    requires Subsequence(a, b)
    ensures Subsequence(a, b + c)
  {
    if c == [] {
      assert b + c == b;
    } else {
      SubsequenceOfLonger(a, b, c[..|c| - 1]);
      assert (b + c)[..|b + c| - 1] == b + c[..|c| - 1];
    }
  }

  lemma {:induction false} ConsumedIsSubsequence(removed: seq<Removal>)
    ensures Subsequence(Consumed(removed), FramesOf(removed))
  {
    if removed != [] {
      var n := |removed| - 1;
      var front := removed[..n];
      ConsumedIsSubsequence(front);
      assert FramesOf(removed)[..n] == FramesOf(front);
      if removed[n].consumed {
        assert Consumed(removed)[..|Consumed(front)|] == Consumed(front);
      } else {
        assert Consumed(removed) == Consumed(front);
      }
    }
  }

  /** The frame that the pump takes from a queue in one step, which it then writes. */
  function Takes(s: Sys, step: Step, lane: Lane): seq<Frame>
    requires Enabled(s, step)
  {
    if step == PumpTake(lane) || (step.PumpPoll? && lane.High? && s.high.frames != []) then [s.Lane(lane).frames[0]]
    else []
  }

  /** What the pump has taken from a queue in the first `k` steps. */
  ghost function Written(states: seq<Sys>, steps: seq<Step>, k: nat, lane: Lane): seq<Frame>
    requires IsPath(states, steps) && k < |states|
  {
    if k == 0 then [] else Written(states, steps, k - 1, lane) + Takes(states[k - 1], steps[k - 1], lane)
  }

  lemma ConsumedOne(removed: seq<Removal>, r: Removal)
    ensures Consumed(removed + [r]) == Consumed(removed) + if r.consumed then [r.frame] else []
  {
    assert (removed + [r])[..|removed|] == removed;
  }

  lemma StepRemovesAtMostOne(s: Sys, step: Step, lane: Lane)
    requires Enabled(s, step)
    ensures var q, after := s.Lane(lane), Next(s, step).Lane(lane).removed;
            if Takes(s, step, lane) != [] then q.frames != [] && after == q.removed + [Removal(q.frames[0], true)]
            else after == q.removed || (q.frames != [] && after == q.removed + [Removal(q.frames[0], false)])
  {
  }

  lemma StepWritesWhatItTakes(s: Sys, step: Step, lane: Lane)
    requires Enabled(s, step)
    ensures Consumed(Next(s, step).Lane(lane).removed) == Consumed(s.Lane(lane).removed) + Takes(s, step, lane)
  {
    var q := s.Lane(lane);
    StepRemovesAtMostOne(s, step, lane);
    if q.frames != [] {
      ConsumedOne(q.removed, Removal(q.frames[0], Takes(s, step, lane) != []));
    }
  }

  /** The queues' history tells the pump's: marked as taken are exactly the frames it took, evicted ones are not. */
  lemma {:induction false} HistoryTellsThePump(states: seq<Sys>, steps: seq<Step>, k: nat, lane: Lane)
    requires IsRun(states, steps) && k < |states|
    ensures Consumed(states[k].Lane(lane).removed) == Written(states, steps, k, lane)
  {
    if k > 0 {
      HistoryTellsThePump(states, steps, k - 1, lane);
      StepWritesWhatItTakes(states[k - 1], steps[k - 1], lane);
    }
  }

  /** In every run the frames the pump took from a queue are an in-order subsequence of those put in. */
  lemma PumpPreservesOrder(states: seq<Sys>, steps: seq<Step>, k: nat, lane: Lane)
    requires IsRun(states, steps) && k < |states|
    ensures Subsequence(Written(states, steps, k, lane), states[k].Lane(lane).put)
  {
    HistoryTellsThePump(states, steps, k, lane);
    RunKeepsInv(states, steps, k);
    var q := states[k].Lane(lane);
    ConsumedIsSubsequence(q.removed);
    SubsequenceOfLonger(Consumed(q.removed), FramesOf(q.removed), q.frames);
  }

  // ---- Priority inversion ----

  /** The pump serves something other than the priority queue. */
  predicate ServesLow(step: Step) {
    step == PumpTake(Low) || step.PumpTick?
  }

  /** How many of the steps i..j serve something other than the priority queue. */
  function LowServices(steps: seq<Step>, i: nat, j: nat): nat
    requires i <= j <= |steps|
  {
    if i == j then 0 else LowServices(steps, i, j - 1) + if ServesLow(steps[j - 1]) then 1 else 0
  }

  /** No step forgets a frame that was put in or removed. */
  predicate Grows(q: Queue, r: Queue) {
    |q.put| <= |r.put| && |q.removed| <= |r.removed|
  }

  lemma HistoryStep(s: Sys, step: Step, lane: Lane)
    requires Enabled(s, step)
    ensures Grows(s.Lane(lane), Next(s, step).Lane(lane))
  {
  }

  lemma {:induction false} GrowsAllAlong(queues: seq<Queue>, i: nat, j: nat)
    requires forall k :: 0 <= k < |queues| - 1 ==> Grows(queues[k], queues[k + 1])
    requires i <= j < |queues|
    ensures Grows(queues[i], queues[j])
    decreases j
  {
    if i < j {
      GrowsAllAlong(queues, i, j - 1);
      assert Grows(queues[j - 1], queues[j - 1 + 1]);
    }
  }

  lemma HistoryGrows(states: seq<Sys>, steps: seq<Step>, lane: Lane, i: nat, j: nat)
    requires IsRun(states, steps) && i <= j < |states|
    ensures Grows(states[i].Lane(lane), states[j].Lane(lane))
  {
    var queues := seq(|states|, k requires 0 <= k < |states| => states[k].Lane(lane));
    forall k | 0 <= k < |queues| - 1 ensures Grows(queues[k], queues[k + 1]) {
      HistoryStep(states[k], steps[k], lane);
    }
    GrowsAllAlong(queues, i, j);
  }

  /** With a priority frame waiting, a polling pump takes one, and a waiting pump returns to polling. */
  ghost predicate Alternates(s: Sys, step: Step, t: Sys) {
    && (ServesLow(step) ==> s.pump.Wait? && t.pump.Poll?)
    && (t.pump.Wait? ==> s.pump.Wait?)
  }

  lemma PumpStep(s: Sys, step: Step)
    requires Enabled(s, step) && s.high.frames != []
    ensures Alternates(s, step, Next(s, step))
  {
  }

  lemma {:induction false} AlternatingPumpServesLowOnce(states: seq<Sys>, steps: seq<Step>, i: nat, j: nat)
    requires |states| == |steps| + 1 && i <= j < |states|
    requires forall k :: i <= k < j ==> Alternates(states[k], steps[k], states[k + 1])
    ensures LowServices(steps, i, j) <= if states[i].pump.Wait? then 1 else 0
    ensures states[j].pump.Wait? ==> LowServices(steps, i, j) == 0 && states[i].pump.Wait?
    decreases j
  {
    if i < j {
      AlternatingPumpServesLowOnce(states, steps, i, j - 1);
      assert Alternates(states[j - 1], steps[j - 1], states[j - 1 + 1]);
    }
  }

  /** A frame numbered below what was put in and not yet removed is still in the queue. */
  lemma UnremovedFrameIsQueued(q: Queue, n: nat)
    requires QueueInv(q) && |q.removed| <= n < |q.put|
    ensures q.frames != [] && n - |q.removed| < |q.frames| && q.frames[n - |q.removed|] == q.put[n]
  {
  }

  /**
   Bounded priority inversion, for every schedule: as long as priority frame number `n`, already queued at state i, has
   not left its queue at state j, the pump has served the other queue or the ticker at most once in between, and not at
   all unless it was already waiting at i. The frame's position in the queue does not matter.
   */
  lemma PriorityInversionIsBounded(states: seq<Sys>, steps: seq<Step>, i: nat, j: nat, n: nat)
    requires IsRun(states, steps) && i <= j < |states|
    requires n < |states[i].high.put| && |states[j].high.removed| <= n
    ensures LowServices(steps, i, j) <= if states[i].pump.Wait? then 1 else 0
  {
    forall k | i <= k < j
      ensures Alternates(states[k], steps[k], states[k + 1])
    {
      HistoryGrows(states, steps, High, i, k);
      HistoryGrows(states, steps, High, k, j);
      RunKeepsInv(states, steps, k);
      UnremovedFrameIsQueued(states[k].high, n);
      PumpStep(states[k], steps[k]);
    }
    AlternatingPumpServesLowOnce(states, steps, i, j);
  }

  // ---- One call at a time ----

  function Drive(s: Sys, p: nat, fuel: nat): Sys
    decreases fuel
  {
    if fuel == 0 || p !in s.producers then s else Drive(AdvanceProducer(s, p), p, fuel - 1)
  }

  /** An enqueue call that runs alone does what Client.Enqueue is specified to do. */
  lemma SoloCallIsPush(s: Sys, p: nat, lane: Lane, frame: Frame)
    requires Inv(s) && Enabled(s, Enter(p, lane, frame))
    ensures var t := Drive(Next(s, Enter(p, lane, frame)), p, 4);
            && p !in t.producers
            && var q := s.Lane(lane).frames;
               t.Lane(lane).frames == if s.isClosed then q else Clients.Push(q, frame, CAPACITY)
  {
  }

  // ---- Whose frame is queued ----

  lemma OthersLeaveCallAlone(s: Sys, step: Step, p: nat)
    requires Enabled(s, step) && p in s.producers && step != Advance(p)
    ensures p in Next(s, step).producers && Next(s, step).producers[p] == s.producers[p]
  {
  }

  lemma {:induction false} CallWaitsForItsRetry(states: seq<Sys>, steps: seq<Step>, a: nat, b: nat, p: nat)
    requires IsRun(states, steps) && a <= b < |states| && p in states[a].producers
    requires forall k :: a <= k < b ==> steps[k] != Advance(p)
    ensures p in states[b].producers && states[b].producers[p] == states[a].producers[p]
    decreases b
  {
    if a < b {
      CallWaitsForItsRetry(states, steps, a, b - 1, p);
      OthersLeaveCallAlone(states[b - 1], steps[b - 1], p);
    }
  }

  /** How many frames came and went between two states of a queue. */
  function Balance(q0: Queue, q: Queue): int {
    (|q.put| - |q0.put|) - (|q.removed| - |q0.removed|)
  }

  lemma BalanceIsGrowth(q0: Queue, q: Queue)
    requires QueueInv(q0) && QueueInv(q)
    ensures |q.frames| == |q0.frames| + Balance(q0, q)
  {
    assert |FramesOf(q0.removed) + q0.frames| == |q0.put|;
    assert |FramesOf(q.removed) + q.frames| == |q.put|;
  }

  /**
   Call `p` evicts at step a and retries at step b. Its frame is queued if and only if the frames put in between do not
   fill the gap again: the queue after the eviction, plus what came, less what went, is still below its capacity.
   Otherwise the call returns without queueing its frame.
   */
  lemma RetryQueuesIffGapRemains(states: seq<Sys>, steps: seq<Step>, a: nat, b: nat, p: nat)
    requires IsRun(states, steps) && a < b < |steps|
    requires steps[a] == Advance(p) && states[a].producers[p].pc.Evict? && steps[b] == Advance(p)
    requires forall k :: a < k < b ==> steps[k] != Advance(p)
    ensures var call := states[a].producers[p];
            var q0, q, after := states[a + 1].Lane(call.lane), states[b].Lane(call.lane), states[b + 1].Lane(call.lane);
            && p !in states[b + 1].producers
            && after.put == (if |q0.frames| + Balance(q0, q) < CAPACITY then q.put + [call.frame] else q.put)
  {
    var call := states[a].producers[p];
    RunKeepsInv(states, steps, a + 1);
    RunKeepsInv(states, steps, b);
    CallWaitsForItsRetry(states, steps, a + 1, b, p);
    BalanceIsGrowth(states[a + 1].Lane(call.lane), states[b].Lane(call.lane));
  }

  /** Without another call of the lane in between, the frame of a call is queued, whatever the pump does. */
  lemma UndisturbedCallIsQueued(states: seq<Sys>, steps: seq<Step>, a: nat, b: nat, p: nat)
    requires IsRun(states, steps) && a < b < |steps|
    requires steps[a] == Advance(p) && states[a].producers[p].pc.Evict? && steps[b] == Advance(p)
    requires forall k :: a < k < b ==> steps[k] != Advance(p)
    requires var lane := states[a].producers[p].lane; states[b].Lane(lane).put == states[a + 1].Lane(lane).put
    ensures var Producer(lane, frame, _) := states[a].producers[p];
            states[b + 1].Lane(lane).put == states[b].Lane(lane).put + [frame]
  {
    var lane := states[a].producers[p].lane;
    RunKeepsInv(states, steps, a);
    RetryQueuesIffGapRemains(states, steps, a, b, p);
    HistoryGrows(states, steps, lane, a + 1, b);
    assert |states[a + 1].Lane(lane).frames| < CAPACITY;
  }

  // ---- A run that loses a frame twice over ----

  lemma OneMore(states: seq<Sys>, steps: seq<Step>, step: Step) returns (states1: seq<Sys>, steps1: seq<Step>)
    requires IsRun(states, steps) && Enabled(states[|steps|], step)
    ensures states1 == states + [Next(states[|steps|], step)] && steps1 == steps + [step] && IsRun(states1, steps1)
  {
    states1, steps1 := states + [Next(states[|steps|], step)], steps + [step];
  }

  /** `n` calls, one after the other, fill the low queue; the pump is not scheduled. */
  lemma {:induction false} Filled(f: Frame, n: nat) returns (states: seq<Sys>, steps: seq<Step>)
    requires n <= CAPACITY
    ensures IsRun(states, steps)
    ensures var s := states[|steps|];
            && s == INIT.(low := s.low) && !s.low.isClosed && s.low.removed == []
            && |s.low.frames| == n && s.low.put == s.low.frames && forall g <- s.low.frames :: g == f
  {
    if n == 0 {
      states, steps := [INIT], [];
    } else {
      states, steps := Filled(f, n - 1);
      var s := states[|steps|];
      states, steps := OneMore(states, steps, Enter(0, Low, f));
      states, steps := OneMore(states, steps, Advance(0));
      states, steps := OneMore(states, steps, Advance(0));
      var t := states[|steps|];
      assert t.low == s.low.Added(f);
      assert t.producers == map[];
    }
  }

  /**
   On a full queue call 1 evicts the oldest frame, call 2 fills the gap, and the retry of call 1 drops its own frame:
   the frame `lost` is never put in, and the frame that was thrown away for it is gone as well.
   */
  lemma RetryCanLoseBothFrames(oldest: Frame, lost: Frame, winner: Frame) returns (states: seq<Sys>, steps: seq<Step>)
    requires lost != oldest && lost != winner
    ensures IsRun(states, steps) && Enter(1, Low, lost) in steps
    ensures var s := states[|steps|];
            && s.producers == map[] && !s.isClosed && lost !in s.low.put
            && s.low.removed == [Removal(oldest, false)] && |s.low.frames| == CAPACITY
  {
    states, steps := Filled(oldest, CAPACITY);
    var q := states[|steps|].low;
    states, steps := OneMore(states, steps, Enter(1, Low, lost));
    states, steps := OneMore(states, steps, Advance(1));
    states, steps := OneMore(states, steps, Advance(1));
    states, steps := OneMore(states, steps, Advance(1));
    assert states[|steps|].low == q.Taken(false) && q.frames[0] in q.frames;
    states, steps := OneMore(states, steps, Enter(2, Low, winner));
    states, steps := OneMore(states, steps, Advance(2));
    states, steps := OneMore(states, steps, Advance(2));
    assert states[|steps|].low == q.Taken(false).Added(winner);
    states, steps := OneMore(states, steps, Advance(1));
    assert states[|steps|].producers == map[];
  }
}
