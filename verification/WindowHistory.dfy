/** What the windows and the published maps say about each stream's own history of good packets. */
module WindowHistory {
  import opened Common
  import opened Counters
  import opened Metrics
  import opened Pipeline
  import opened Statistics
  import opened Windows

  /** The packets of all closed windows, in order. */
  function Flatten(closed: seq<Closure>): seq<Observation> {
    if closed == [] then [] else Flatten(ButLast(closed)) + Last(closed).packets
  }

  function PacketCounts(closed: seq<Closure>): nat {
    if closed == [] then 0 else PacketCounts(ButLast(closed)) + |Last(closed).packets|
  }

  /** The metrics thread has counted a good packet of this stream and not yet added it to the window. */
  predicate Holds(c: Control, k: string) {
    c.CountedGood? && Key(c.packet) == k
  }

  function Held(c: Control, k: string): seq<Observation> {
    if Holds(c, k) then [Observation(c.packet.samples, c.latency)] else []
  }

  ghost predicate ReceivedMatches(s: State, k: string) {
    var st := StreamOf(s.history, k);
    && |st.good| == Get(s.tables.received, k)
    && (k in s.tables.received <==> k in s.tables.windows || Holds(s.control, k))
    && (k in s.history.streams <==> k in s.tables.received)
  }

  /** Closed windows, the open one and the packet in hand list the stream's good packets, once and in order. */
  ghost predicate WindowsPartition(s: State, k: string) {
    var st := StreamOf(s.history, k);
    st.good == Flatten(st.closed) + st.open + Held(s.control, k)
  }

  /** The open accumulators are the fold over exactly the packets since the last reset. */
  ghost predicate WindowMatches(s: State, k: string) {
    var st := StreamOf(s.history, k);
    if k in s.tables.windows then
      var w := s.tables.windows[k];
      && w.running == Fold(st.open)
      && w.interval == s.config.interval
      && (st.closed != [] ==> Last(st.closed).at == w.lastUpdate)
    else
      st.open == [] && st.closed == []
  }

  ghost predicate PublishedMatches(s: State, k: string) {
    var p, closed := s.tables.published, StreamOf(s.history, k).closed;
    && (k in p.latencies <==> closed != [])
    && (k in p.counts <==> closed != [])
    && (k in p.deviations <==> closed != [])
    && (closed != [] ==> Gauges(p.latencies[k], p.counts[k], p.deviations[k]) == Last(closed).gauges)
  }

  ghost predicate ClosureValid(c: Closure, interval: nat) {
    && c.gauges == CloseWith(Fold(c.packets), interval)
    && c.at >= c.since + IntervalMicroseconds(interval)
  }

  ghost predicate ClosuresChain(closed: seq<Closure>, interval: nat) {
    && (forall i :: 0 <= i < |closed| ==> ClosureValid(closed[i], interval))
    && (forall i :: 0 < i < |closed| ==> closed[i].since == closed[i - 1].at)
  }

  ghost predicate ObservationsValid(os: seq<Observation>) {
    AllNonEmpty(os) && LatenciesInRange(os)
  }

  ghost predicate StreamValid(s: State, k: string) {
    && ReceivedMatches(s, k)
    && WindowsPartition(s, k)
    && WindowMatches(s, k)
    && PublishedMatches(s, k)
    && ClosuresChain(StreamOf(s.history, k).closed, s.config.interval)
    && ObservationsValid(StreamOf(s.history, k).good)
  }

  ghost predicate StreamsInvariant(s: State) {
    && s.config.Valid()
    && s.tables.interval == s.config.interval
    && ControlValid(s.control)
    && forall k :: StreamValid(s, k)
  }

  // ---- the three steps that touch a stream ----

  /** All other steps leave windows, published maps and stream histories alone. */
  lemma QuietStep(s: State)
    requires !s.control.CountedCumulativeGood? && !s.control.CountedGood? && !s.control.Flushing?
    ensures Consumed(s).config == s.config && Consumed(s).history.streams == s.history.streams
    ensures !Consumed(s).control.CountedGood?
  {
    hide FlushStep, Windowed, Received, Classify, Bump, Key;
  }

  lemma QuietTables(s: State)
    requires !s.control.CountedCumulativeGood? && !s.control.CountedGood? && !s.control.Flushing?
    ensures
      var a, b := s.tables, Consumed(s).tables;
      b.windows == a.windows && b.published == a.published && b.received == a.received
  {
    hide FlushStep, Windowed, Received, Bump, Key, Classify;
    match s.control
    case Top =>
    case Counted(_) =>
    case _ =>
  }

  lemma QuietKeepsStream(s: State, t: State, k: string)
    requires StreamValid(s, k)
    requires t.config == s.config && t.history.streams == s.history.streams
    requires t.tables.windows == s.tables.windows && t.tables.published == s.tables.published
    requires t.tables.received == s.tables.received
    requires Held(t.control, k) == Held(s.control, k) && Holds(t.control, k) == Holds(s.control, k)
    ensures StreamValid(t, k)
  {
    hide Fold, Flatten, CloseWith, ClosuresChain, ObservationsValid, Held, Holds;
  }

  lemma ReceivedKeepsStream(s: State, k: string)
    requires s.control.CountedCumulativeGood? && ControlValid(s.control) && StreamValid(s, k)
    ensures StreamValid(Consumed(s), k)
  {
    hide Fold, Flatten, CloseWith, ClosuresChain, Key;
    var p, latency := s.control.packet, s.control.latency;
    var t := Consumed(s);
    GetBump(s.tables.received, Key(p), k);
    var st, ut := StreamOf(s.history, k), StreamOf(t.history, k);
    if k == Key(p) {
      assert ut.good == st.good + [Observation(p.samples, latency)];
      assert ut.closed == st.closed && ut.open == st.open;
      assert WindowsPartition(t, k);
    } else {
      assert ut == st;
    }
  }

  lemma FoldAppend(os: seq<Observation>, o: Observation)
    ensures Fold(os + [o]) == Add(Fold(os), o)
  {
    assert ButLast(os + [o]) == os;
  }

  /** What adding the packet in hand to its window does to one stream. */
  lemma WindowingOfStream(s: State, k: string)
    requires s.control.CountedGood? && s.tables.interval == s.config.interval
    ensures
      var t, a, b := Consumed(s), s.tables, Consumed(s).tables;
      var own, o := k == Key(s.control.packet), Observation(s.control.packet.samples, s.control.latency);
      var st := StreamOf(s.history, k);
      && t.config == s.config && !t.control.CountedGood?
      && b.received == a.received && b.published == a.published
      && StreamOf(t.history, k) == (if own then st.(open := st.open + [o]) else st)
      && (k in t.history.streams <==> own || k in s.history.streams)
      && (k in b.windows <==> own || k in a.windows)
      && (k in b.windows && k in a.windows ==>
            b.windows[k] == if own then AddTo(a.windows[k], o) else a.windows[k])
      && (k in b.windows && k !in a.windows ==> b.windows[k] == AddTo(NewWindow(s.config.interval, s.clock), o))
  {
    hide Add, Key;
  }

  lemma WindowedKeepsPartition(s: State, k: string)
    requires s.control.CountedGood? && s.tables.interval == s.config.interval && WindowsPartition(s, k)
    ensures WindowsPartition(Consumed(s), k)
  {
    WindowingOfStream(s, k);
    var o := Observation(s.control.packet.samples, s.control.latency);
    var st := StreamOf(s.history, k);
    hide Consumed, StreamOf, Flatten, Key;
    if k == Key(s.control.packet) {
      calc {
        st.good;
        Flatten(st.closed) + st.open + [o];
        Flatten(st.closed) + (st.open + [o]);
        Flatten(st.closed) + (st.open + [o]) + [];
      }
    }
  }

  lemma WindowedKeepsStream(s: State, k: string)
    requires s.control.CountedGood? && s.tables.interval == s.config.interval && StreamValid(s, k)
    ensures StreamValid(Consumed(s), k)
  {
    WindowingOfStream(s, k);
    WindowedKeepsPartition(s, k);
    FoldAppend(StreamOf(s.history, k).open, Observation(s.control.packet.samples, s.control.latency));
    assert Fold([]) == NOTHING;
    hide Consumed, StreamOf, Fold, CloseWith, ClosuresChain, ObservationsValid, Add, Key, WindowsPartition;
  }

  lemma FlattenAppend(closed: seq<Closure>, c: Closure)
    ensures Flatten(closed + [c]) == Flatten(closed) + c.packets
    ensures PacketCounts(closed + [c]) == PacketCounts(closed) + |c.packets|
  {
    assert ButLast(closed + [c]) == closed;
  }

  /** What a flush does to one stream. */
  lemma FlushOfStream(s: State, k: string)
    requires s.control.Flushing? && (k in s.tables.windows ==> k in s.history.streams)
    ensures
      var t, now := Consumed(s), s.control.now;
      var a, b := s.tables, t.tables;
      && b.received == a.received && !t.control.CountedGood? && t.config == s.config
      && (k in b.windows <==> k in a.windows)
      && (k in t.history.streams <==> k in s.history.streams)
      && (k in a.windows ==> b.windows[k] == Flushed(a.windows[k], now))
      && (if k in a.windows && Due(a.windows[k], now) then
            var g := Flushed(a.windows[k], now).gauges;
            && StreamOf(t.history, k) == ClosedStream(StreamOf(s.history, k), a.windows[k], now)
            && k in b.published.latencies && k in b.published.counts && k in b.published.deviations
            && Gauges(b.published.latencies[k], b.published.counts[k], b.published.deviations[k]) == g
          else
            && StreamOf(t.history, k) == StreamOf(s.history, k)
            && (k in b.published.latencies <==> k in a.published.latencies)
            && (k in b.published.counts <==> k in a.published.counts)
            && (k in b.published.deviations <==> k in a.published.deviations)
            && (k in a.published.latencies ==> b.published.latencies[k] == a.published.latencies[k])
            && (k in a.published.counts ==> b.published.counts[k] == a.published.counts[k])
            && (k in a.published.deviations ==> b.published.deviations[k] == a.published.deviations[k]))
  {
    hide Due, Flushed, ClosedStream;
  }

  lemma FlushKeepsStream(s: State, k: string)
    requires s.control.Flushing? && StreamValid(s, k)
    ensures StreamValid(Consumed(s), k)
  {
    FlushOfStream(s, k);
    var t, now := Consumed(s), s.control.now;
    var st, ut := StreamOf(s.history, k), StreamOf(t.history, k);
    assert Fold([]) == NOTHING;
    hide Consumed, Fold, Flatten, CloseWith, ObservationsValid, StreamOf;
    if k in s.tables.windows && Due(s.tables.windows[k], now) {
      var w := s.tables.windows[k];
      var c := Closure(st.open, w.lastUpdate, now, Flushed(w, now).gauges);
      FlattenAppend(st.closed, c);
      assert ut.closed == st.closed + [c];
      assert ClosureValid(c, s.config.interval);
      assert ClosuresChain(ut.closed, s.config.interval);
    }
  }

  lemma StreamStep(s: State, e: Event, k: string)
    requires StreamsInvariant(s)
    ensures StreamValid(Next(s, e), k)
  {
    assert StreamValid(s, k);
    hide StreamValid, Consumed;
    if !e.Consume? {
      QuietKeepsStream(s, Next(s, e), k);
    } else if s.control.CountedCumulativeGood? {
      ReceivedKeepsStream(s, k);
    } else if s.control.CountedGood? {
      WindowedKeepsStream(s, k);
    } else if s.control.Flushing? {
      FlushKeepsStream(s, k);
    } else {
      QuietStep(s);
      QuietTables(s);
      QuietKeepsStream(s, Consumed(s), k);
    }
  }

  lemma StreamsStep(s: State, e: Event)
    requires StreamsInvariant(s)
    ensures StreamsInvariant(Next(s, e))
  {
    ControlStep(s, e);
    if e.Consume? {
      CountersTouched(s);
    }
    forall k ensures StreamValid(Next(s, e), k) {
      StreamStep(s, e, k);
    }
    hide StreamValid, Consumed;
  }

  lemma {:induction false} StreamsOnRuns(run: seq<State>, events: seq<Event>, config: Config, clock: int, i: nat)
    requires IsRun(run, events, config, clock) && i < |run|
    ensures StreamsInvariant(run[i]) && run[i].config == config
  {
    if i == 0 {
      forall k ensures StreamValid(run[0], k) {
        assert StreamOf(run[0].history, k) == NO_STREAM;
      }
    } else {
      StreamsOnRuns(run, events, config, clock, i - 1);
      StreamsStep(run[i - 1], events[i - 1]);
    }
  }

  // ---- what follows for every run ----

  /**
   * Windows partition history: the closed windows and the open one hold every good packet of the stream once
   * and in order, up to the packet between its counter and its window; the open sums are the fold over the rest.
   */
  lemma WindowsPartitionHistory(run: seq<State>, events: seq<Event>, config: Config, clock: int, i: nat, k: string)
    requires IsRun(run, events, config, clock) && i < |run|
    ensures
      var s := run[i];
      var st := StreamOf(s.history, k);
      && st.good == Flatten(st.closed) + st.open + Held(s.control, k)
      && (k in s.tables.windows ==> s.tables.windows[k].running == Fold(st.open))
      && PacketCounts(st.closed) + |st.open| == Get(s.tables.received, k) - One(Holds(s.control, k))
  {
    StreamsOnRuns(run, events, config, clock, i);
    assert StreamValid(run[i], k);
    FlattenSize(StreamOf(run[i].history, k).closed);
  }

  lemma {:induction false} FlattenSize(closed: seq<Closure>)
    ensures |Flatten(closed)| == PacketCounts(closed)
  {
    if closed != [] {
      FlattenSize(ButLast(closed));
    }
  }

  lemma {:induction false} ClosurePackets(closed: seq<Closure>, i: nat)
    requires i < |closed| && ObservationsValid(Flatten(closed))
    ensures ObservationsValid(closed[i].packets)
  {
    var rest, last := Flatten(ButLast(closed)), Last(closed).packets;
    assert Flatten(closed) == rest + last;
    assert forall j :: 0 <= j < |rest| ==> rest[j] == Flatten(closed)[j];
    assert forall j :: 0 <= j < |last| ==> last[j] == Flatten(closed)[|rest| + j];
    if i < |closed| - 1 {
      ClosurePackets(ButLast(closed), i);
    }
  }

  lemma ClosuresHoldGoodPackets(run: seq<State>, events: seq<Event>, config: Config, clock: int, i: nat, k: string)
    requires IsRun(run, events, config, clock) && i < |run|
    ensures forall c :: c in StreamOf(run[i].history, k).closed ==> ObservationsValid(c.packets)
    ensures ObservationsValid(StreamOf(run[i].history, k).open)
  {
    StreamsOnRuns(run, events, config, clock, i);
    assert StreamValid(run[i], k);
    var st := StreamOf(run[i].history, k);
    PartsValid(Flatten(st.closed), st.open, Held(run[i].control, k));
    hide StreamValid, IsRun, ObservationsValid, StreamOf;
    forall c | c in st.closed ensures ObservationsValid(c.packets) {
      var j :| 0 <= j < |st.closed| && st.closed[j] == c;
      ClosurePackets(st.closed, j);
    }
  }

  lemma PartsValid(a: seq<Observation>, b: seq<Observation>, c: seq<Observation>)
    requires ObservationsValid(a + b + c)
    ensures ObservationsValid(a) && ObservationsValid(b)
  {
    var all := a + b + c;
    assert forall j :: 0 <= j < |a| ==> a[j] == all[j];
    assert forall j :: 0 <= j < |b| ==> b[j] == all[|a| + j];
  }

  /** The three published maps hold the same streams, all with a window, and one closed window's values each. */
  lemma PublishedMapsAgree(run: seq<State>, events: seq<Event>, config: Config, clock: int, i: nat)
    requires IsRun(run, events, config, clock) && i < |run|
    ensures
      var p := run[i].tables.published;
      && p.latencies.Keys == p.counts.Keys == p.deviations.Keys <= run[i].tables.windows.Keys
      && forall k :: k in p.latencies ==>
           var closed := StreamOf(run[i].history, k).closed;
           && closed != []
           && Gauges(p.latencies[k], p.counts[k], p.deviations[k]) == Last(closed).gauges
                == CloseWith(Fold(Last(closed).packets), config.interval)
    ensures forall k :: k in run[i].tables.received <==> k in run[i].tables.windows || Holds(run[i].control, k)
  {
    StreamsOnRuns(run, events, config, clock, i);
    var s := run[i];
    var p := s.tables.published;
    forall k
      ensures k in s.tables.received <==> k in s.tables.windows || Holds(s.control, k)
      ensures (k in p.latencies <==> k in p.counts) && (k in p.counts <==> k in p.deviations)
      ensures k in p.latencies ==>
        var closed := StreamOf(s.history, k).closed;
        && k in s.tables.windows && closed != []
        && Gauges(p.latencies[k], p.counts[k], p.deviations[k]) == Last(closed).gauges
             == CloseWith(Fold(Last(closed).packets), config.interval)
    {
      assert StreamValid(s, k);
      var closed := StreamOf(s.history, k).closed;
      assert closed != [] ==> ClosureValid(closed[|closed| - 1], config.interval);
      hide Fold, CloseWith;
    }
  }

  /** Any published triple against the two-pass statistics of the one window it came from. */
  lemma PublishedGaugesAreStatistics(
      run: seq<State>, events: seq<Event>, config: Config, clock: int, i: nat, k: string)
    requires IsRun(run, events, config, clock) && i < |run|
    requires k in run[i].tables.published.latencies
    ensures StreamOf(run[i].history, k).closed != []
    ensures
      var p, c := run[i].tables.published, Last(StreamOf(run[i].history, k).closed);
      var spec := TwoPassGauges(c.packets, config.interval);
      && k in p.counts && k in p.deviations
      && p.latencies[k] == spec.latency && p.counts[k] == spec.counts
      && 0.0 <= p.deviations[k] <= spec.deviationSquared
      && (c.packets != [] ==>
            && AllValues(c.packets) != []
            && (p.deviations[k] == spec.deviationSquared <==>
                  AllSquaresFit(c.packets) || PopulationVariance(AllValues(c.packets)) == 0.0))
      && (c.packets == [] ==> p.latencies[k] == config.interval as real && p.counts[k] == 0.0 == p.deviations[k])
      && (c.packets != [] ==> 0.0 <= p.latencies[k] <= 15552000.0)
  {
    PublishedMapsAgree(run, events, config, clock, i);
    ClosuresHoldGoodPackets(run, events, config, clock, i, k);
    var p, c := run[i].tables.published, Last(StreamOf(run[i].history, k).closed);
    assert c in StreamOf(run[i].history, k).closed;
    assert k in p.counts && k in p.deviations;
    hide IsRun, Fold, TwoPassGauges, CloseWith, AllSquaresFit, AllValues, PopulationVariance;
    if c.packets == [] {
      EmptyWindowGauges(config.interval);
    } else {
      GaugesAgainstTwoPass(c.packets, config.interval);
      PublishedLatencyInRange(c.packets, config.interval);
    }
  }

  /** If the samples of the published window lie in [lo, hi], so does the mean, and the deviation is bounded. */
  lemma PublishedGaugesBounded(
      run: seq<State>, events: seq<Event>, config: Config, clock: int, i: nat, k: string, lo: real, hi: real)
    requires IsRun(run, events, config, clock) && i < |run|
    requires k in run[i].tables.published.latencies && StreamOf(run[i].history, k).closed != []
    requires
      var os := Last(StreamOf(run[i].history, k).closed).packets;
      os != [] && Within(AllValues(os), lo, hi)
    ensures
      var p, xs := run[i].tables.published, AllValues(Last(StreamOf(run[i].history, k).closed).packets);
      && k in p.counts && k in p.deviations && |xs| > 0
      && lo <= p.counts[k] <= hi
      && var factor := Times(BesselCorrection(|xs|), BesselCorrection(|xs|));
         && 0.0 <= p.deviations[k] <= Times(factor, Times(hi - p.counts[k], p.counts[k] - lo))
         && Times(factor, Times(hi - p.counts[k], p.counts[k] - lo)) <= Times(factor, Times(hi - lo, hi - lo) / 4.0)
  {
    PublishedMapsAgree(run, events, config, clock, i);
    ClosuresHoldGoodPackets(run, events, config, clock, i, k);
    var c := Last(StreamOf(run[i].history, k).closed);
    assert c in StreamOf(run[i].history, k).closed;
    GaugeBounds(c.packets, config.interval, lo, hi);
    hide IsRun, Fold, CloseWith, Times, Within, AllValues, BesselCorrection;
  }

  /** Two publications of a stream, however many lie between, are that many intervals apart, whatever the clock does. */
  lemma {:induction false} PublicationsSpaced(
      run: seq<State>, events: seq<Event>, config: Config, clock: int, i: nat, k: string, a: nat, b: nat)
    requires IsRun(run, events, config, clock) && i < |run|
    requires a <= b < |StreamOf(run[i].history, k).closed|
    ensures
      var closed := StreamOf(run[i].history, k).closed;
      && closed[b].at - closed[a].at >= (b - a) * config.interval * 1000000
      && closed[a].at - closed[a].since >= config.interval * 1000000
      && (a > 0 ==> closed[a].since == closed[a - 1].at)
    decreases b
  {
    StreamsOnRuns(run, events, config, clock, i);
    assert StreamValid(run[i], k);
    assert ClosureValid(StreamOf(run[i].history, k).closed[a], config.interval);
    if a < b {
      PublicationsSpaced(run, events, config, clock, i, k, a, b - 1);
      var closed := StreamOf(run[i].history, k).closed;
      assert ClosureValid(closed[b], config.interval);
      assert (b - a) * config.interval == (b - 1 - a) * config.interval + config.interval;
    }
  }

  /** The 64-bit latency sum of an open window cannot overflow up to SAFE_PACKETS packets. */
  lemma OpenLatencySumFits(run: seq<State>, events: seq<Event>, config: Config, clock: int, i: nat, k: string)
    requires IsRun(run, events, config, clock) && i < |run| && k in run[i].tables.windows
    requires run[i].tables.windows[k].running.packetsCount <= SAFE_PACKETS
    ensures 0 <= run[i].tables.windows[k].running.sumLatency <= LARGEST_INT64
  {
    WindowsPartitionHistory(run, events, config, clock, i, k);
    ClosuresHoldGoodPackets(run, events, config, clock, i, k);
    var open := StreamOf(run[i].history, k).open;
    FoldIsSums(open);
    LatencySumFits(open);
  }
}
