/** No packet is lost uncounted: the drop-oldest queue and the counters, at every step of every run. */
module Conservation {
  import opened Common
  import opened Counters
  import opened Metrics
  import opened PacketQueue
  import opened Packets
  import opened Pipeline

  // ---- the queue ----

  function Range(n: nat): seq<nat> {
    seq(n, i => i)
  }

  function Indices(drops: seq<Drop>): seq<nat> {
    seq(|drops|, i requires 0 <= i < |drops| => drops[i].index)
  }

  ghost predicate Increasing(xs: seq<nat>) {
    forall i, j :: 0 <= i < j < |xs| ==> xs[i] < xs[j]
  }

  /** How many packets have left the queue, one way or the other. */
  function Gone(s: State): int {
    |s.history.arrivals| - |s.queue|
  }

  /** The queue holds exactly the newest arrivals, within its capacity. */
  ghost predicate QueueIsNewest(s: State) {
    && s.config.Valid()
    && Gone(s) >= 0
    && s.queue == Newest(s.history.arrivals, |s.queue|)
    && |s.queue| <= s.config.capacity
  }

  /** Every packet that left was either consumed or dropped, once; consumption follows the order of arrival. */
  ghost predicate LeaversPartitioned(s: State) {
    && Gone(s) >= 0
    && multiset(s.history.consumed) + multiset(Indices(s.history.drops)) == multiset(Range(Gone(s)))
    && Increasing(s.history.consumed)
    && (s.history.consumed != [] ==> Last(s.history.consumed) < Gone(s))
  }

  /** A packet is dropped only when exactly capacity newer packets have arrived behind it. */
  ghost predicate DropsAreOverflow(s: State) {
    forall i :: 0 <= i < |s.history.drops| ==>
      s.history.drops[i].arrived == s.history.drops[i].index + s.config.capacity + 1
  }

  /** The packet in hand is the arrival that was consumed last. */
  ghost predicate InHandIsLastConsumed(s: State) {
    HasPacket(s.control) ==>
      && s.history.consumed != []
      && Last(s.history.consumed) < |s.history.arrivals|
      && s.control.packet == s.history.arrivals[Last(s.history.consumed)]
  }

  ghost predicate QueueInvariant(s: State) {
    QueueIsNewest(s) && LeaversPartitioned(s) && DropsAreOverflow(s) && InHandIsLastConsumed(s)
  }

  /** The next packet to leave extends one side of the partition. */
  lemma PartitionGrows(consumed: seq<nat>, dropped: seq<nat>, n: nat)
    requires multiset(consumed) + multiset(dropped) == multiset(Range(n))
    ensures multiset(consumed + [n]) + multiset(dropped) == multiset(Range(n + 1))
    ensures multiset(consumed) + multiset(dropped + [n]) == multiset(Range(n + 1))
  {
    assert Range(n + 1) == Range(n) + [n];
    hide Range;
  }

  lemma IncreasingAppend(xs: seq<nat>, n: nat)
    requires Increasing(xs) && (xs != [] ==> Last(xs) < n)
    ensures Increasing(xs + [n])
  {
    forall i, j | 0 <= i < j < |xs| + 1 ensures (xs + [n])[i] < (xs + [n])[j] {
      if j == |xs| && i < |xs| - 1 {
        assert xs[i] < Last(xs);
      }
    }
  }

  lemma ArrivedKeepsPartition(s: State, p: BuiltPacket)
    requires QueueIsNewest(s) && LeaversPartitioned(s)
    ensures LeaversPartitioned(Arrived(s, p))
  {
    var t := Arrived(s, p);
    PartitionGrows(s.history.consumed, Indices(s.history.drops), Gone(s));
    assert t.history.consumed == s.history.consumed;
    if Overflow(|s.queue|, s.config.capacity) > 0 {
      assert Gone(t) == Gone(s) + 1;
      assert Indices(t.history.drops) == Indices(s.history.drops) + [Gone(s)];
    } else {
      assert Gone(t) == Gone(s) && t.history.drops == s.history.drops;
    }
    hide Arrived, Range, Indices, Increasing, QueueIsNewest, Gone;
  }

  lemma ArrivedKeepsQueue(s: State, p: BuiltPacket)
    requires QueueInvariant(s)
    ensures QueueInvariant(Arrived(s, p))
  {
    ArrivedKeepsPartition(s, p);
    PushKeepsNewest(s.history.arrivals, |s.queue|, s.config.capacity, p);
    hide LeaversPartitioned, Newest, Pushed;
  }

  lemma PoppedKeepsPartition(s: State)
    requires QueueIsNewest(s) && LeaversPartitioned(s) && s.queue != []
    ensures LeaversPartitioned(Popped(s))
  {
    var t := Popped(s);
    PartitionGrows(s.history.consumed, Indices(s.history.drops), Gone(s));
    IncreasingAppend(s.history.consumed, Gone(s));
    assert Gone(t) == Gone(s) + 1 && t.history.drops == s.history.drops;
    assert t.history.consumed == s.history.consumed + [Gone(s)];
    hide Popped, Range, Indices, Increasing, QueueIsNewest, Gone;
  }

  lemma NewestTail<T>(arrivals: seq<T>, n: nat)
    requires 0 < n <= |arrivals|
    ensures Newest(arrivals, n)[1..] == Newest(arrivals, n - 1)
    ensures Newest(arrivals, n)[0] == arrivals[|arrivals| - n]
  {
  }

  lemma PoppedKeepsQueue(s: State)
    requires QueueInvariant(s) && s.control == Top
    ensures QueueInvariant(Popped(s))
  {
    if s.queue != [] {
      PoppedKeepsPartition(s);
      NewestTail(s.history.arrivals, |s.queue|);
    }
    hide LeaversPartitioned, Newest;
  }

  lemma OtherStepsLeaveQueueAlone(s: State)
    requires s.control != Top
    ensures
      var t := Consumed(s);
      && t.config == s.config && t.queue == s.queue
      && t.history.arrivals == s.history.arrivals
      && t.history.consumed == s.history.consumed
      && t.history.drops == s.history.drops
      && (HasPacket(t.control) ==> HasPacket(s.control) && t.control.packet == s.control.packet)
  {
    hide FlushAll, FlushedStreams, AddToWindow, Classify, Bump;
  }

  lemma OtherStepsKeepQueue(s: State)
    requires QueueInvariant(s) && s.control != Top
    ensures QueueInvariant(Consumed(s))
  {
    OtherStepsLeaveQueueAlone(s);
    hide Consumed, Range, Newest, Indices, HasPacket;
  }

  lemma QueueStep(s: State, e: Event)
    requires QueueInvariant(s)
    ensures QueueInvariant(Next(s, e))
  {
    match e
    case Arrive(p) => ArrivedKeepsQueue(s, p);
    case SetClock(t) =>
    case Consume =>
      if s.control == Top {
        PoppedKeepsQueue(s);
      } else {
        OtherStepsKeepQueue(s);
      }
  }

  // ---- the counters ----

  /** Every consumed packet is in hand, was thrown away for want of a name, or is in its stream's total. */
  ghost predicate ConsumedCounted(s: State) {
    |s.history.consumed| == One(Carrying(s.control)) + s.history.unnamed + Total(s.tables.total)
  }

  /** Each cumulative counter leads the sum over its streams by the packet between the two increments. */
  ghost predicate CumulativeLeads(s: State) {
    && s.tables.cumulativeTotal == Total(s.tables.total) + One(s.control.CountedCumulative?)
    && s.tables.cumulativeValid == Total(s.tables.received) + One(s.control.CountedCumulativeGood?)
  }

  /** A stream's total splits into its verdicts and the packet being decided. */
  ghost predicate TotalSplits(s: State, k: string) {
    Get(s.tables.total, k)
      == Get(s.tables.received, k) + Get(s.tables.future, k) + Get(s.tables.expired, k) + Get(s.history.rejected, k)
         + One(Undecided(s.control) && Key(s.control.packet) == k)
  }

  ghost predicate CounterInvariant(s: State) {
    && ControlValid(s.control)
    && ConsumedCounted(s)
    && CumulativeLeads(s)
    && forall k :: TotalSplits(s, k)
  }

  lemma SumsStep(s: State, e: Event)
    requires s.config.Valid() && ConsumedCounted(s) && CumulativeLeads(s)
    ensures ConsumedCounted(Next(s, e)) && CumulativeLeads(Next(s, e))
  {
    hide Consumed, Total, Bump, Classify, Key;
    if e.Consume? {
      CountersTouched(s);
      HistoryTouched(s);
      ControlMoves(s);
      if s.control.CountedCumulative? {
        TotalBump(s.tables.total, Key(s.control.packet));
      } else if s.control.CountedCumulativeGood? {
        TotalBump(s.tables.received, Key(s.control.packet));
      }
    }
  }

  lemma SplitStep(s: State, e: Event, k: string)
    requires s.config.Valid() && TotalSplits(s, k)
    ensures TotalSplits(Next(s, e), k)
  {
    hide Consumed, Get, Bump, Classify, Key;
    if e.Consume? {
      CountersTouched(s);
      HistoryTouched(s);
      ControlMoves(s);
      if HasPacket(s.control) {
        var j := Key(s.control.packet);
        GetBump(s.tables.total, j, k);
        GetBump(s.tables.received, j, k);
        GetBump(s.tables.future, j, k);
        GetBump(s.tables.expired, j, k);
        GetBump(s.history.rejected, j, k);
      }
    }
  }

  lemma CounterStep(s: State, e: Event)
    requires s.config.Valid() && CounterInvariant(s)
    ensures CounterInvariant(Next(s, e))
  {
    ControlStep(s, e);
    SumsStep(s, e);
    forall k ensures TotalSplits(Next(s, e), k) {
      assert TotalSplits(s, k);
      SplitStep(s, e, k);
    }
  }

  // ---- every run ----

  lemma {:induction false} QueueOnRuns(run: seq<State>, events: seq<Event>, config: Config, clock: int, i: nat)
    requires IsRun(run, events, config, clock) && i < |run|
    ensures QueueInvariant(run[i]) && run[i].config == config
  {
    if i == 0 {
      assert Newest<BuiltPacket>([], 0) == [];
      assert Range(0) == [] && Indices([]) == [];
    } else {
      QueueOnRuns(run, events, config, clock, i - 1);
      QueueStep(run[i - 1], events[i - 1]);
    }
  }

  lemma {:induction false} CountersOnRuns(run: seq<State>, events: seq<Event>, config: Config, clock: int, i: nat)
    requires IsRun(run, events, config, clock) && i < |run|
    ensures CounterInvariant(run[i])
  {
    if i == 0 {
      forall k ensures TotalSplits(run[0], k) {
      }
    } else {
      CountersOnRuns(run, events, config, clock, i - 1);
      CounterStep(run[i - 1], events[i - 1]);
    }
  }

  /**
   * Whole-pipeline conservation under every interleaving: what arrived is queued, dropped by overflow, in
   * hand, thrown away unnamed, or in exactly one stream's total, and each total is the sum of its verdicts.
   */
  lemma EveryPacketAccountedFor(run: seq<State>, events: seq<Event>, config: Config, clock: int, i: nat)
    requires IsRun(run, events, config, clock) && i < |run|
    ensures
      var s := run[i];
      |s.history.arrivals| == |s.queue| + |s.history.drops| + One(Carrying(s.control)) + s.history.unnamed
                              + Total(s.tables.total)
    ensures forall k :: TotalSplits(run[i], k)
  {
    QueueOnRuns(run, events, config, clock, i);
    CountersOnRuns(run, events, config, clock, i);
    var s := run[i];
    assert |multiset(s.history.consumed) + multiset(Indices(s.history.drops))| == |multiset(Range(Gone(s)))|;
  }

  /** At every instant each cumulative counter is ahead of the sum over its streams by nought or one. */
  lemma CumulativeCountersLead(run: seq<State>, events: seq<Event>, config: Config, clock: int, i: nat)
    requires IsRun(run, events, config, clock) && i < |run|
    ensures
      var t := run[i].tables;
      && Total(t.total) <= t.cumulativeTotal <= Total(t.total) + 1
      && Total(t.received) <= t.cumulativeValid <= Total(t.received) + 1
  {
    CountersOnRuns(run, events, config, clock, i);
  }

  /** A packet that had fewer than capacity newer arrivals when the run ended was not lost to overflow. */
  lemma LossNeedsCapacityNewerArrivals(
      run: seq<State>, events: seq<Event>, config: Config, clock: int, i: nat, index: nat)
    requires IsRun(run, events, config, clock) && i < |run|
    requires index < |run[i].history.arrivals|
    requires |run[i].history.arrivals| - index <= config.capacity
    ensures index in run[i].history.consumed || index >= |run[i].history.arrivals| - |run[i].queue|
  {
    QueueOnRuns(run, events, config, clock, i);
    ArrivedBounds(run, events, config, clock, i);
    var s := run[i];
    assert forall d :: 0 <= d < |s.history.drops| ==> Indices(s.history.drops)[d] != index;
    if index < Gone(s) {
      assert Range(Gone(s))[index] == index;
      assert index in multiset(s.history.consumed) + multiset(Indices(s.history.drops));
    }
  }

  lemma {:induction false} ArrivedBounds(run: seq<State>, events: seq<Event>, config: Config, clock: int, i: nat)
    requires IsRun(run, events, config, clock) && i < |run|
    ensures forall d :: 0 <= d < |run[i].history.drops| ==>
      run[i].history.drops[d].arrived <= |run[i].history.arrivals|
  {
    if i > 0 {
      ArrivedBounds(run, events, config, clock, i - 1);
      hide FlushedStreams, FlushAll, AddToWindow, Classify, Bump;
      assert run[i] == Next(run[i - 1], events[i - 1]);
    }
  }
}
