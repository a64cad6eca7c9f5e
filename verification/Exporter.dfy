/** What other threads see: counters read one by one while the metrics thread keeps running. */
module Exporter {
  import opened Conservation
  import opened Counters
  import opened Metrics
  import opened Packets
  import opened Pipeline

  /** No counter of any stream ever falls. */
  ghost predicate CountersGrow(s: State, t: State, k: string) {
    && Get(s.tables.total, k) <= Get(t.tables.total, k)
    && Get(s.tables.received, k) <= Get(t.tables.received, k)
    && Get(s.tables.future, k) <= Get(t.tables.future, k)
    && Get(s.tables.expired, k) <= Get(t.tables.expired, k)
    && s.tables.cumulativeTotal <= t.tables.cumulativeTotal
    && s.tables.cumulativeValid <= t.tables.cumulativeValid
  }

  lemma CountersGrowStep(s: State, e: Event, k: string)
    requires s.config.Valid()
    ensures CountersGrow(s, Next(s, e), k)
  {
    hide Consumed, Get, Bump, Key;
    if e.Consume? {
      CountersTouched(s);
      if HasPacket(s.control) {
        var j := Key(s.control.packet);
        GetBump(s.tables.total, j, k);
        GetBump(s.tables.received, j, k);
        GetBump(s.tables.future, j, k);
        GetBump(s.tables.expired, j, k);
      }
    }
  }

  lemma {:induction false} CountersGrowOnRuns(
      run: seq<State>, events: seq<Event>, config: Config, clock: int, i: nat, j: nat, k: string)
    requires IsRun(run, events, config, clock) && i <= j < |run|
    ensures CountersGrow(run[i], run[j], k)
    decreases j
  {
    if i < j {
      CountersGrowOnRuns(run, events, config, clock, i, j - 1, k);
      CountersGrowStep(run[j - 1], events[j - 1], k);
    }
  }

  /**
   * The exporter reads valid, future and expired in any order and the total last, at four moments with any
   * steps between: the three never add up to more than the total.
   */
  lemma ExporterNeverOvercounts(
      run: seq<State>, events: seq<Event>, config: Config, clock: int,
      valid: nat, future: nat, expired: nat, total: nat, k: string)
    requires IsRun(run, events, config, clock)
    requires valid <= total && future <= total && expired <= total && total < |run|
    ensures Get(run[valid].tables.received, k) + Get(run[future].tables.future, k) + Get(run[expired].tables.expired, k)
         <= Get(run[total].tables.total, k)
  {
    CountersGrowOnRuns(run, events, config, clock, valid, total, k);
    CountersGrowOnRuns(run, events, config, clock, future, total, k);
    CountersGrowOnRuns(run, events, config, clock, expired, total, k);
    CountersOnRuns(run, events, config, clock, total);
    assert TotalSplits(run[total], k);
    hide IsRun;
  }

  // ---- every classified stream has a total ----

  ghost predicate AllPositive(c: Counter) {
    forall k :: k in c ==> c[k] > 0
  }

  ghost predicate TablesPositive(t: Tables) {
    AllPositive(t.received) && AllPositive(t.future) && AllPositive(t.expired) && AllPositive(t.total)
  }

  lemma {:induction false} PositiveOnRuns(run: seq<State>, events: seq<Event>, config: Config, clock: int, i: nat)
    requires IsRun(run, events, config, clock) && i < |run|
    ensures TablesPositive(run[i].tables)
  {
    if i > 0 {
      PositiveOnRuns(run, events, config, clock, i - 1);
      if events[i - 1].Consume? {
        CountersTouched(run[i - 1]);
        hide Consumed, Key;
      }
    }
  }

  lemma ClassifiedStreamsHaveTotals(run: seq<State>, events: seq<Event>, config: Config, clock: int, i: nat)
    requires IsRun(run, events, config, clock) && i < |run|
    ensures
      var t := run[i].tables;
      t.received.Keys + t.future.Keys + t.expired.Keys <= t.total.Keys
  {
    PositiveOnRuns(run, events, config, clock, i);
    CountersOnRuns(run, events, config, clock, i);
    var t := run[i].tables;
    forall k | k in t.received || k in t.future || k in t.expired ensures k in t.total {
      assert TotalSplits(run[i], k);
    }
  }

  // ---- the two cumulative counters ----

  /** Counted in the cumulative total, and neither as valid nor as anything else. */
  predicate InFlight(c: Control) {
    c.CountedCumulative? || c.Counted? || c.IsFuture? || c.IsExpired? || c.IsGood?
  }

  /** The packets of all streams that turned out future, expired or rejected. */
  ghost function NotValid(s: State): nat {
    Total(s.tables.future) + Total(s.tables.expired) + Total(s.history.rejected)
  }

  ghost predicate CumulativeSplits(s: State) {
    s.tables.cumulativeTotal == s.tables.cumulativeValid + NotValid(s) + One(InFlight(s.control))
  }

  lemma NotValidStep(s: State)
    ensures
      var c := s.control;
      NotValid(Consumed(s)) == NotValid(s)
        + One(c.IsFuture? || c.IsExpired? || (c.Counted? && Classify(c.packet, s.clock).Rejected?))
  {
    hide Consumed, Total, Bump, Key, Classify;
    CountersTouched(s);
    HistoryTouched(s);
    if s.control.IsFuture? {
      TotalBump(s.tables.future, Key(s.control.packet));
    } else if s.control.IsExpired? {
      TotalBump(s.tables.expired, Key(s.control.packet));
    } else if s.control.Counted? {
      TotalBump(s.history.rejected, Key(s.control.packet));
    }
  }

  lemma InFlightMoves(s: State)
    ensures
      var c := s.control;
      InFlight(Consumed(s).control) == (
        || (c.InHand? && c.packet.id.Some?) || c.CountedCumulative?
        || (c.Counted? && !Classify(c.packet, s.clock).Rejected?))
  {
    hide FlushedStreams, FlushAll, AddToWindow, Classify, Bump, StreamOf, Key;
  }

  lemma CumulativeStep(s: State, e: Event)
    requires s.config.Valid() && CumulativeSplits(s)
    ensures CumulativeSplits(Next(s, e)) && NotValid(s) <= NotValid(Next(s, e))
  {
    hide Consumed, Total, Classify, Key;
    if e.Consume? {
      CountersTouched(s);
      NotValidStep(s);
      InFlightMoves(s);
      hide NotValid;
    }
  }

  /** At one instant the two cumulative counters differ by the packets that are not valid and the one in flight. */
  lemma {:induction false} CumulativeOnRuns(run: seq<State>, events: seq<Event>, config: Config, clock: int, i: nat)
    requires IsRun(run, events, config, clock) && i < |run|
    ensures CumulativeSplits(run[i])
  {
    if i > 0 {
      CumulativeOnRuns(run, events, config, clock, i - 1);
      CumulativeStep(run[i - 1], events[i - 1]);
      hide Next, NotValid;
    }
  }

  lemma {:induction false} NotValidGrows(
      run: seq<State>, events: seq<Event>, config: Config, clock: int, i: nat, j: nat)
    requires IsRun(run, events, config, clock) && i <= j < |run|
    ensures NotValid(run[i]) <= NotValid(run[j])
    decreases j
  {
    if i < j {
      NotValidGrows(run, events, config, clock, i, j - 1);
      CumulativeOnRuns(run, events, config, clock, j - 1);
      CumulativeStep(run[j - 1], events[j - 1]);
      hide Next, NotValid;
    }
  }

  // ---- the order of the reads matters ----

  /**
   * Were the total read first, the other three would stay within it exactly when what they gained since then is
   * no more than the packets of the stream that were rejected, or not yet decided, at that moment.
   */
  lemma TotalReadFirst(
      run: seq<State>, events: seq<Event>, config: Config, clock: int,
      total: nat, valid: nat, future: nat, expired: nat, k: string)
    requires IsRun(run, events, config, clock)
    requires total <= valid < |run| && total <= future < |run| && total <= expired < |run|
    ensures
      var s := run[total];
      var newValid := Get(run[valid].tables.received, k) - Get(s.tables.received, k);
      var newFuture := Get(run[future].tables.future, k) - Get(s.tables.future, k);
      var newExpired := Get(run[expired].tables.expired, k) - Get(s.tables.expired, k);
      && newValid >= 0 && newFuture >= 0 && newExpired >= 0
      && (Get(run[valid].tables.received, k) + Get(run[future].tables.future, k) + Get(run[expired].tables.expired, k)
            <= Get(s.tables.total, k)
          <==> newValid + newFuture + newExpired
                 <= Get(s.history.rejected, k) + One(Undecided(s.control) && Key(s.control.packet) == k))
  {
    CountersGrowOnRuns(run, events, config, clock, total, valid, k);
    CountersGrowOnRuns(run, events, config, clock, total, future, k);
    CountersGrowOnRuns(run, events, config, clock, total, expired, k);
    CountersOnRuns(run, events, config, clock, total);
    assert TotalSplits(run[total], k);
    hide IsRun;
  }

  /** A packet arrives and is tabulated without interruption up to its received count. */
  function OnePacket(p: BuiltPacket): seq<Event> {
    [Arrive(p), Consume, Consume, Consume, Consume, Consume, Consume]
  }

  /** The moments of that run at which the counters move, from the cumulative total to the received count. */
  lemma OnePacketCounted(config: Config, clock: int, p: BuiltPacket)
    requires config.Valid() && p.id.Some? && Classify(p, clock).Good?
    ensures
      var run := RunFrom(Init(config, clock), OnePacket(p));
      && |run| == 8
      && run[3].tables.cumulativeTotal == 1 && run[3].tables.cumulativeValid == 0
      && run[6].tables.cumulativeTotal == 1 && run[6].tables.cumulativeValid == 1
      && run[7].tables.cumulativeTotal == 1 && run[7].tables.cumulativeValid == 1
      && Get(run[7].tables.received, Key(p)) == 1 == Get(run[7].tables.total, Key(p))
  {
    hide Key, Classify, FlushStep, Windowed, RunFrom;
    var s := Arrived(Init(config, clock), p);
    OnePacketStates(config, clock, p);
    assert s.queue == [p];
    var s2 := Consumed(Consumed(s));
    assert s2.control == CountedCumulative(p) && s2.clock == clock && s2.tables.received == map[];
    var s5 := Consumed(Consumed(Consumed(s2)));
    assert s5.control.CountedCumulativeGood? && s5.tables.total == map[Key(p) := 1];
  }

  lemma OnePacketStates(config: Config, clock: int, p: BuiltPacket)
    requires config.Valid()
    ensures
      var run := RunFrom(Init(config, clock), OnePacket(p));
      var s2 := Consumed(Consumed(Arrived(Init(config, clock), p)));
      var s5 := Consumed(Consumed(Consumed(s2)));
      run[3] == s2 && run[6] == s5 && run[7] == Consumed(s5)
  {
    var s, events := Init(config, clock), OnePacket(p);
    assert s.config == config;
    hide Consumed, Arrived, RunFrom, Init;
    RunFromSteps(s, events, 0);
    assert RunFrom(s, events)[1] == Arrived(s, p);
    hide Next;
    ConsumeEvent(s, events, 1);
    ConsumeEvent(s, events, 2);
    ConsumeEvent(s, events, 3);
    ConsumeEvent(s, events, 4);
    ConsumeEvent(s, events, 5);
    ConsumeEvent(s, events, 6);
  }

  lemma ConsumeEvent(s: State, events: seq<Event>, i: nat)
    requires s.config.Valid() && i < |events| && events[i] == Consume
    ensures RunFrom(s, events)[i + 1] == Consumed(RunFrom(s, events)[i])
  {
    RunFromSteps(s, events, i);
    hide Consumed, RunFrom;
  }

  /** And that happens: a total read at the start, and one valid packet out of none. */
  lemma TotalReadFirstCanLag(config: Config, clock: int, p: BuiltPacket)
    requires config.Valid() && p.id.Some? && Classify(p, clock).Good?
    ensures exists run: seq<State>, events: seq<Event>, total: nat, valid: nat ::
      && IsRun(run, events, config, clock) && total <= valid < |run|
      && Get(run[valid].tables.received, Key(p)) > Get(run[total].tables.total, Key(p))
  {
    var run := RunFrom(Init(config, clock), OnePacket(p));
    RunFromIsRun(config, clock, OnePacket(p));
    OnePacketCounted(config, clock, p);
    assert Get(run[0].tables.total, Key(p)) == 0;
    hide IsRun, RunFrom, OnePacket, Key, Classify;
    assert IsRun(run, OnePacket(p), config, clock) && 0 <= 7 < |run|;
  }
}
