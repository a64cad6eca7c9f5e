/** The metrics singleton: packet counters, windows and the published maps, all filed by stream key. */
module Metrics {
  import opened Common
  import opened Counters
  import opened Packets
  import opened StreamNames
  import opened Windows

  /** The three maps the exporter reads gauges from. */
  datatype Published = Published(latencies: map<string, real>, counts: map<string, real>, deviations: map<string, real>)

  /** The singleton's fields as one value. */
  datatype Tables = Tables(
    received: Counter, expired: Counter, future: Counter, total: Counter,
    published: Published,
    windows: map<string, Window>,
    cumulativeTotal: nat, cumulativeValid: nat, interval: nat)

  function EmptyTables(interval: nat): Tables {
    Tables(map[], map[], map[], map[], Published(map[], map[], map[]), map[], 0, 0, interval)
  }

  // ---- the steps of tabulating one packet, each under one lock or on one atomic ----

  function CountCumulativeTotal(t: Tables): Tables {
    t.(cumulativeTotal := t.cumulativeTotal + 1)
  }

  function CountTotal(t: Tables, k: string): Tables {
    t.(total := Bump(t.total, k))
  }

  function CountFuture(t: Tables, k: string): Tables {
    t.(future := Bump(t.future, k))
  }

  function CountExpired(t: Tables, k: string): Tables {
    t.(expired := Bump(t.expired, k))
  }

  function CountCumulativeValid(t: Tables): Tables {
    t.(cumulativeValid := t.cumulativeValid + 1)
  }

  function CountReceived(t: Tables, k: string): Tables {
    t.(received := Bump(t.received, k))
  }

  /** A stream's first valid packet creates its window at the time read then. */
  function AddToWindow(t: Tables, k: string, o: Observation, now: int): Tables {
    var w := if k in t.windows then t.windows[k] else NewWindow(t.interval, now);
    t.(windows := t.windows[k := AddTo(w, o)])
  }

  // ---- classification ----

  const MAXIMUM_FUTURE_TIME := 0

  datatype Verdict =
    | Rejected(error: PacketError)
    | Future
    | Expired
    | Good(latency: int)

  function Classify(p: PacketValue, now: int): Verdict {
    if p.samples.Size() <= 0 then Rejected(NoData)
    else
      match EndTimeOf(p)
      case Err(e) => Rejected(e)
      case Ok(end) =>
        if end > now + MAXIMUM_FUTURE_TIME then Future
        else if p.start < now - MAXIMUM_LATENCY then Expired
        else Good(Max(0, now - end))
  }

  /** A packet that can be classified by its times. */
  predicate WellFormed(p: PacketValue) {
    p.id.Some? && p.samples.Size() > 0 && p.rate > 0.0
  }

  /**
   * A packet is good exactly when it has data and a rate and lies between now less 180 days and now;
   * then the clamp at zero does nothing and the latency is the true one, at most 180 days.
   */
  lemma GoodPackets(p: BuiltPacket, now: int)
    ensures Classify(p, now).Good? <==>
      p.samples.Size() > 0 && p.rate > 0.0 && now - MAXIMUM_LATENCY <= p.start && p.end <= now
    ensures Classify(p, now).Good? ==>
      Classify(p, now).latency == now - p.end && 0 <= now - p.end <= now - p.start <= MAXIMUM_LATENCY
    ensures MAXIMUM_LATENCY == 180 * 24 * 60 * 60 * 1000000
  {
    EndTimeIsLastSample(p.start, p.rate, p.samples.Size());
  }

  /** Future wins over expired, and a packet with data and a rate is never rejected. */
  lemma OtherVerdicts(p: BuiltPacket, now: int)
    ensures Classify(p, now).Rejected? <==> p.samples.Size() == 0 || p.rate <= 0.0
    ensures Classify(p, now).Future? <==> p.samples.Size() > 0 && p.rate > 0.0 && p.end > now
    ensures Classify(p, now).Expired? <==>
      p.samples.Size() > 0 && p.rate > 0.0 && p.end <= now && p.start < now - MAXIMUM_LATENCY
  {
  }

  // ---- a whole call ----

  datatype Outcome = NoIdentifier | Tabulated(verdict: Verdict)

  /** One undisturbed call: now is the time read for the classification, born the time a new window reads. */
  function Tabulate(t: Tables, p: PacketValue, now: int, born: int): (Tables, Outcome) {
    if p.id.None? then (t, NoIdentifier)
    else
      var k := ToKeyName(p.id.value);
      var counted := CountTotal(CountCumulativeTotal(t), k);
      var v := Classify(p, now);
      var after :=
        match v
        case Rejected(_) => counted
        case Future => CountFuture(counted, k)
        case Expired => CountExpired(counted, k)
        case Good(latency) =>
          AddToWindow(CountReceived(CountCumulativeValid(counted), k), k, Observation(p.samples, latency), born);
      (after, Tabulated(v))
  }

  /** One call counts a stream's packet once in the total and once more under its verdict, and nothing else. */
  lemma CountedByVerdict(t: Tables, p: BuiltPacket, now: int, born: int, k: string)
    requires p.id.Some?
    ensures
      var a := Tabulate(t, p, now, born).0;
      var own, known := k == ToKeyName(p.id.value), p.samples.Size() > 0 && p.rate > 0.0;
      var old180 := p.start < now - 180 * 24 * 60 * 60 * 1000000;
      && Get(a.total, k) == Get(t.total, k) + (if own then 1 else 0)
      && Get(a.future, k) == Get(t.future, k) + (if own && known && p.end > now then 1 else 0)
      && Get(a.expired, k) == Get(t.expired, k) + (if own && known && p.end <= now && old180 then 1 else 0)
      && Get(a.received, k) == Get(t.received, k) + (if own && known && p.end <= now && !old180 then 1 else 0)
      && a.cumulativeTotal == t.cumulativeTotal + 1
      && a.cumulativeValid == t.cumulativeValid + (if known && p.end <= now && !old180 then 1 else 0)
  {
    GoodPackets(p, now);
    OtherVerdicts(p, now);
    var j := ToKeyName(p.id.value);
    GetBump(t.total, j, k);
    GetBump(t.future, j, k);
    GetBump(t.expired, j, k);
    GetBump(t.received, j, k);
    hide Get, Bump, ToKeyName, Classify;
  }

  function FlushedGauges(windows: map<string, Window>, now: int): map<string, Gauges> {
    map k | k in windows && Due(windows[k], now) :: Flushed(windows[k], now).gauges
  }

  function PublishOne(p: Published, k: string, g: Gauges): Published {
    Published(p.latencies[k := g.latency], p.counts[k := g.counts], p.deviations[k := g.deviationSquared])
  }

  function Column(gauges: map<string, Gauges>, column: Gauges -> real): map<string, real> {
    map k | k in gauges :: column(gauges[k])
  }

  function PublishAll(p: Published, gauges: map<string, Gauges>): Published {
    Published(p.latencies + Column(gauges, (g: Gauges) => g.latency),
              p.counts + Column(gauges, (g: Gauges) => g.counts),
              p.deviations + Column(gauges, (g: Gauges) => g.deviationSquared))
  }

  /** Closing every window that is due and publishing its three gauges. */
  function FlushAll(t: Tables, now: int): Tables {
    t.(windows := map k | k in t.windows :: Flushed(t.windows[k], now),
       published := PublishAll(t.published, FlushedGauges(t.windows, now)))
  }

  /** The gauges of the windows already visited. */
  function Visited(gauges: map<string, Gauges>, left: set<string>): map<string, Gauges> {
    map k | k in gauges && k !in left :: gauges[k]
  }

  lemma PublishStep(p: Published, gauges: map<string, Gauges>, key: string, g: Gauges)
    ensures PublishAll(p, gauges[key := g]) == PublishOne(PublishAll(p, gauges), key, g)
  {
    MergeStep(p.latencies, gauges, key, g, (x: Gauges) => x.latency);
    MergeStep(p.counts, gauges, key, g, (x: Gauges) => x.counts);
    MergeStep(p.deviations, gauges, key, g, (x: Gauges) => x.deviationSquared);
  }

  lemma MergeStep(m: map<string, real>, gauges: map<string, Gauges>, key: string, g: Gauges, column: Gauges -> real)
    ensures m + Column(gauges[key := g], column) == (m + Column(gauges, column))[key := column(g)]
  {
  }

  lemma VisitedStep(p: Published, windows: map<string, Window>, left: set<string>, now: int, key: string)
    requires key in left && key in windows
    ensures
      var gauges, w := FlushedGauges(windows, now), windows[key];
      var before := PublishAll(p, Visited(gauges, left));
      PublishAll(p, Visited(gauges, left - {key}))
        == if Due(w, now) then PublishOne(before, key, Flushed(w, now).gauges) else before
  {
    hide Due, Flushed, PublishAll, PublishOne;
    var gauges := FlushedGauges(windows, now);
    var l, r := Visited(gauges, left), Visited(gauges, left - {key});
    if key in gauges {
      assert r == l[key := gauges[key]];
      PublishStep(p, l, key, gauges[key]);
    } else {
      assert r == l;
    }
  }

  lemma VisitedEnds(p: Published, windows: map<string, Window>, now: int)
    ensures
      var gauges := FlushedGauges(windows, now);
      Visited(gauges, {}) == gauges && PublishAll(p, Visited(gauges, windows.Keys)) == p
  {
    hide Due, Flushed;
    assert Visited(FlushedGauges(windows, now), windows.Keys) == map[];
  }

  /** The windows when only those outside left have been visited. */
  function FlushedOutside(windows: map<string, Window>, left: set<string>, now: int): map<string, Window> {
    map k | k in windows :: if k in left then windows[k] else Flushed(windows[k], now)
  }

  lemma FlushedOutsideStep(windows: map<string, Window>, left: set<string>, now: int, key: string)
    requires key in left && key in windows
    ensures FlushedOutside(windows, left - {key}, now)
         == FlushedOutside(windows, left, now)[key := Flushed(windows[key], now)]
    ensures FlushedOutside(windows, left, now)[key] == windows[key]
  {
    hide Flushed;
  }

  lemma FlushedOutsideEnds(windows: map<string, Window>, now: int)
    ensures FlushedOutside(windows, windows.Keys, now) == windows
    ensures FlushedOutside(windows, {}, now) == map k | k in windows :: Flushed(windows[k], now)
  {
    hide Flushed;
  }

  class MetricsSingleton {
    var receivedPackets: Counter
    var expiredPackets: Counter
    var futurePackets: Counter
    var totalPackets: Counter
    var averageLatencies: map<string, real>
    var averageCounts: map<string, real>
    var stdCountsSquared: map<string, real>
    var windowedMetrics: map<string, WindowedMetrics>
    var cumulativeReceivedTotal: nat
    var cumulativeReceivedValid: nat
    var updateInterval: nat

    /** Every stream owns its window object. */
    ghost predicate Valid()
      reads this`windowedMetrics, windowedMetrics.Values
    {
      && (forall k :: k in windowedMetrics ==> windowedMetrics[k].Valid())
      && (forall j, k :: j in windowedMetrics && k in windowedMetrics && j != k ==>
            windowedMetrics[j] != windowedMetrics[k])
    }

    ghost function Windows(): map<string, Window>
      reads this`windowedMetrics, windowedMetrics.Values
      requires Valid()
    {
      map k | k in windowedMetrics :: windowedMetrics[k].Value()
    }

    ghost function Gauged(): Published
      reads this`averageLatencies, this`averageCounts, this`stdCountsSquared
    {
      Published(averageLatencies, averageCounts, stdCountsSquared)
    }

    ghost function Value(): Tables
      reads this, windowedMetrics.Values
      requires Valid()
    {
      Tables(receivedPackets, expiredPackets, futurePackets, totalPackets,
             Gauged(), Windows(),
             cumulativeReceivedTotal, cumulativeReceivedValid, updateInterval)
    }

    constructor (interval: nat)
      ensures Valid() && Value() == EmptyTables(interval)
      ensures windowedMetrics == map[]
    {
      receivedPackets, expiredPackets, futurePackets, totalPackets := map[], map[], map[], map[];
      averageLatencies, averageCounts, stdCountsSquared := map[], map[], map[];
      windowedMetrics := map[];
      cumulativeReceivedTotal, cumulativeReceivedValid := 0, 0;
      updateInterval := interval;
    }

    method IncrementCumulativeReceivedTotalPacketsCounter()
      requires Valid()
      modifies this`cumulativeReceivedTotal
      ensures Valid() && Value() == CountCumulativeTotal(old(Value()))
    {
      hide Valid, Windows, Gauged;
      cumulativeReceivedTotal := cumulativeReceivedTotal + 1;
    }

    method IncrementCumulativeReceivedValidPacketsCounter()
      requires Valid()
      modifies this`cumulativeReceivedValid
      ensures Valid() && Value() == CountCumulativeValid(old(Value()))
    {
      hide Valid, Windows, Gauged;
      cumulativeReceivedValid := cumulativeReceivedValid + 1;
    }

    method IncrementTotalPacketsCounter(key: string)
      requires Valid()
      modifies this`totalPackets
      ensures Valid() && Value() == CountTotal(old(Value()), key)
    {
      hide Valid, Windows, Gauged;
      if key !in totalPackets {
        totalPackets := totalPackets[key := 1];
      } else {
        totalPackets := totalPackets[key := totalPackets[key] + 1];
      }
    }

    method IncrementFuturePacketsCounter(key: string)
      requires Valid()
      modifies this`futurePackets
      ensures Valid() && Value() == CountFuture(old(Value()), key)
    {
      hide Valid, Windows, Gauged;
      if key !in futurePackets {
        futurePackets := futurePackets[key := 1];
      } else {
        futurePackets := futurePackets[key := futurePackets[key] + 1];
      }
    }

    method IncrementExpiredPacketsCounter(key: string)
      requires Valid()
      modifies this`expiredPackets
      ensures Valid() && Value() == CountExpired(old(Value()), key)
    {
      hide Valid, Windows, Gauged;
      if key !in expiredPackets {
        expiredPackets := expiredPackets[key := 1];
      } else {
        expiredPackets := expiredPackets[key := expiredPackets[key] + 1];
      }
    }

    method IncrementReceivedPacketsCounter(key: string)
      requires Valid()
      modifies this`receivedPackets
      ensures Valid() && Value() == CountReceived(old(Value()), key)
    {
      hide Valid, Windows, Gauged;
      if key !in receivedPackets {
        receivedPackets := receivedPackets[key := 1];
      } else {
        receivedPackets := receivedPackets[key := receivedPackets[key] + 1];
      }
    }

    method InsertWindow(key: string, metrics: WindowedMetrics)
      requires Valid() && metrics.Valid() && key !in windowedMetrics && metrics !in windowedMetrics.Values
      modifies this`windowedMetrics
      ensures windowedMetrics == old(windowedMetrics)[key := metrics]
      ensures Valid() && Windows() == old(Windows())[key := metrics.Value()]
    {
      hide CloseWith;
      assert forall k :: k in windowedMetrics ==> windowedMetrics[k] != metrics;
      windowedMetrics := windowedMetrics[key := metrics];
    }

    method UpdateExistingWindow(key: string, o: Observation)
      requires Valid() && key in windowedMetrics
      modifies windowedMetrics[key]
      ensures Valid() && Windows() == old(Windows()[key := AddTo(Windows()[key], o)])
    {
      hide Add, CloseWith;
      var item := windowedMetrics[key];
      ghost var before := Windows();
      item.Update(o.samples, o.latency);
      forall k | k in windowedMetrics && k != key ensures windowedMetrics[k].Valid() && Windows()[k] == before[k] {
        assert windowedMetrics[k] != item;
      }
    }

    method UpdateWindow(key: string, o: Observation, now: int)
      requires Valid()
      modifies this`windowedMetrics, windowedMetrics.Values
      ensures Valid() && Value() == AddToWindow(old(Value()), key, o, now)
      ensures fresh(windowedMetrics.Values - old(windowedMetrics.Values))
    {
      hide Add, CloseWith, NewWindow;
      if key !in windowedMetrics {
        var metrics := new WindowedMetrics(updateInterval, now);
        metrics.Update(o.samples, o.latency);
        InsertWindow(key, metrics);
      } else {
        UpdateExistingWindow(key, o);
      }
    }

    /** Tabulates one packet. The clock is read once for the classification and once more for a new window. */
    method TabulateMetrics(packet: PacketValue, now: int, born: int) returns (outcome: Outcome)
      requires Valid()
      modifies this, windowedMetrics.Values
      ensures Valid() && (Value(), outcome) == Tabulate(old(Value()), packet, now, born)
      ensures fresh(windowedMetrics.Values - old(windowedMetrics.Values))
    {
      hide Bump, AddToWindow;
      if packet.id.None? {
        return NoIdentifier;
      }
      var key := ToKeyName(packet.id.value);
      IncrementCumulativeReceivedTotalPacketsCounter();
      IncrementTotalPacketsCounter(key);
      var nSamples := packet.samples.Size();
      if nSamples <= 0 {
        return Tabulated(Rejected(NoData));
      }
      var end := EndTimeOf(packet);
      if end.Err? {
        return Tabulated(Rejected(end.error));
      }
      if end.value > now + MAXIMUM_FUTURE_TIME {
        IncrementFuturePacketsCounter(key);
        return Tabulated(Future);
      } else if packet.start < now - MAXIMUM_LATENCY {
        IncrementExpiredPacketsCounter(key);
        return Tabulated(Expired);
      }
      var latency := Max(0, now - end.value);
      IncrementCumulativeReceivedValidPacketsCounter();
      IncrementReceivedPacketsCounter(key);
      UpdateWindow(key, Observation(packet.samples, latency), born);
      return Tabulated(Good(latency));
    }

    /** Closes one window if it is due. */
    method CloseIfDue(key: string, now: int) returns (updated: bool)
      requires Valid() && key in windowedMetrics
      modifies windowedMetrics[key]
      ensures Valid() && Windows() == old(Windows()[key := Flushed(Windows()[key], now)])
      ensures updated == old(Due(Windows()[key], now))
    {
      hide CloseWith, Due, Flushed;
      var item := windowedMetrics[key];
      ghost var before := Windows();
      updated := item.UpdateAndReset(now);
      forall k | k in windowedMetrics && k != key ensures windowedMetrics[k].Valid() && Windows()[k] == before[k] {
        assert windowedMetrics[k] != item;
      }
    }

    /** Copies the three gauges of one window into the published maps. */
    method Publish(key: string)
      requires Valid() && key in windowedMetrics
      modifies this`averageLatencies, this`averageCounts, this`stdCountsSquared
      ensures Gauged() == PublishOne(old(Gauged()), key, Windows()[key].gauges)
    {
      var item := windowedMetrics[key];
      averageLatencies := averageLatencies[key := item.windowedAverageLatency];
      averageCounts := averageCounts[key := item.windowedAverageCounts];
      stdCountsSquared := stdCountsSquared[key := item.windowedStdCountsSquared];
    }

    method VisitWindow(key: string, now: int)
      requires Valid() && key in windowedMetrics
      modifies this`averageLatencies, this`averageCounts, this`stdCountsSquared, windowedMetrics[key]
      ensures Valid() && Windows() == old(Windows()[key := Flushed(Windows()[key], now)])
      ensures Gauged() == old(
        if Due(Windows()[key], now) then PublishOne(Gauged(), key, Flushed(Windows()[key], now).gauges) else Gauged())
    {
      hide CloseWith, Due, Flushed, PublishOne;
      var updated := CloseIfDue(key, now);
      if updated {
        Publish(key);
      }
    }

    /** Closes every due window and publishes its gauges, in whatever order the map is walked. */
    method UpdateAndResetWindowedMetrics(now: int)
      requires Valid()
      modifies this`averageLatencies, this`averageCounts, this`stdCountsSquared, windowedMetrics.Values
      ensures Valid() && Value() == FlushAll(old(Value()), now)
    {
      hide CloseWith, Due, Flushed, Visited, PublishAll, PublishOne, FlushedGauges, FlushedOutside;
      ghost var before, published := Windows(), Gauged();
      ghost var gauges := FlushedGauges(before, now);
      var left := windowedMetrics.Keys;
      assert before.Keys == left;
      VisitedEnds(published, before, now);
      FlushedOutsideEnds(before, now);
      while left != {}
        invariant left <= windowedMetrics.Keys && Valid()
        invariant Windows() == FlushedOutside(before, left, now)
        invariant Gauged() == PublishAll(published, Visited(gauges, left))
      {
        var key :| key in left;
        FlushedOutsideStep(before, left, now, key);
        VisitedStep(published, before, left, now, key);
        VisitWindow(key, now);
        left := left - {key};
      }
    }
  }
}
