/** The metrics thread as a program: one loop pass over the queue and the singleton, and its tie to the step system. */
module Process {
  import opened Common
  import opened Counters
  import opened Metrics
  import opened PacketQueue
  import opened Packets
  import opened Pipeline
  import opened Windows

  /** The times that the clock readings of one pass return. They need not be in order. */
  datatype Readings = Readings(classify: int, born: int, flush: int, mark: int, idle: int)

  /** The singleton and the thread's own last update after a pass, given what was popped. */
  datatype Effect = Effect(tables: Tables, lastUpdate: int)

  function PassEffect(t: Tables, lastUpdate: int, interval: nat, hand: Option<PacketValue>, r: Readings): Effect {
    match hand
    case Some(p) =>
      var (after, outcome) := Tabulate(t, p, r.classify, r.born);
      if outcome.NoIdentifier? || outcome.verdict.Rejected? then Effect(after, lastUpdate)
      else Effect(FlushAll(after, r.flush), r.mark)
    case None =>
      Effect(if r.idle > lastUpdate + IntervalMicroseconds(interval) then FlushAll(t, r.flush) else t, lastUpdate)
  }

  /** A pass that finds nothing flushes only if the last update is more than the interval ago, and marks nothing. */
  lemma IdlePass(t: Tables, lastUpdate: int, interval: nat, r: Readings)
    ensures
      var e := PassEffect(t, lastUpdate, interval, None, r);
      && (r.idle - lastUpdate <= interval * 1000000 ==> e == Effect(t, lastUpdate))
      && (r.idle - lastUpdate > interval * 1000000 ==> e == Effect(FlushAll(t, r.flush), lastUpdate))
  {
  }

  /** A pass with a packet flushes and marks the last update exactly when the packet has identifier, data and rate. */
  lemma BusyPass(t: Tables, lastUpdate: int, interval: nat, p: BuiltPacket, r: Readings)
    ensures
      var e, after := PassEffect(t, lastUpdate, interval, Some(p), r), Tabulate(t, p, r.classify, r.born).0;
      if p.id.Some? && p.samples.Size() > 0 && p.rate > 0.0 then
        e == Effect(FlushAll(after, r.flush), r.mark)
      else
        && e == Effect(after, lastUpdate)
        && after.windows == t.windows && after.published == t.published
        && after.received == t.received && after.future == t.future && after.expired == t.expired
        && (p.id.None? ==> after == t)
  {
    OtherVerdicts(p, r.classify);
    hide FlushAll, Bump, EndTime;
  }

  /** The queue, the singleton and the thread's last update. */
  datatype Snapshot = Snapshot(queue: seq<PacketValue>, tables: Tables, lastUpdate: int)

  function AfterPass(s: Snapshot, interval: nat, r: Readings): Snapshot {
    var hand := if s.queue == [] then None else Some(s.queue[0]);
    var e := PassEffect(s.tables, s.lastUpdate, interval, hand, r);
    Snapshot(if s.queue == [] then [] else s.queue[1..], e.tables, e.lastUpdate)
  }

  /** With nothing queued a pass changes at most the windows and what is published, and only when it is overdue. */
  lemma IdleAfterPass(s: Snapshot, interval: nat, r: Readings)
    requires s.queue == []
    ensures AfterPass(s, interval, r)
         == if r.idle - s.lastUpdate > interval * 1000000 then s.(tables := FlushAll(s.tables, r.flush)) else s
  {
    IdlePass(s.tables, s.lastUpdate, interval, r);
    hide FlushAll;
  }

  function PushedAll(queue: seq<PacketValue>, capacity: nat, packets: seq<PacketValue>): seq<PacketValue>
    requires capacity > 0
  {
    if packets == [] then queue else Pushed(PushedAll(queue, capacity, ButLast(packets)), capacity, Last(packets))
  }

  function AfterArrivals(s: Snapshot, capacity: nat, packets: seq<PacketValue>): Snapshot
    requires capacity > 0
  {
    s.(queue := PushedAll(s.queue, capacity, packets))
  }

  /** One turn of the loop: what arrives before the packet is popped, and what arrives while it is tabulated. */
  datatype Turn = Turn(before: seq<PacketValue>, readings: Readings, during: seq<PacketValue>)

  function AfterTurn(s: Snapshot, capacity: nat, interval: nat, t: Turn): Snapshot
    requires capacity > 0
  {
    AfterArrivals(AfterPass(AfterArrivals(s, capacity, t.before), interval, t.readings), capacity, t.during)
  }

  function AfterTurns(s: Snapshot, capacity: nat, interval: nat, ts: seq<Turn>): Snapshot
    requires capacity > 0
  {
    if ts == [] then s else AfterTurn(AfterTurns(s, capacity, interval, ButLast(ts)), capacity, interval, Last(ts))
  }

  class Process {
    const queue: Queue<PacketValue>
    const metrics: MetricsSingleton
    const interval: nat
    var lastUpdate: int

    constructor (capacity: nat, interval: nat, now: int)
      requires capacity > 0 && interval > 0
      ensures metrics.Valid() && metrics.Value() == EmptyTables(interval) && metrics.windowedMetrics == map[]
      ensures queue.packets == [] && queue.maximumSize == capacity
      ensures this.interval == interval && lastUpdate == now
      ensures fresh(queue) && fresh(metrics)
    {
      queue := new Queue(capacity);
      metrics := new MetricsSingleton(interval);
      this.interval := interval;
      lastUpdate := now;
    }

    ghost function Now(): Snapshot
      reads this`lastUpdate, queue`packets, metrics, metrics.windowedMetrics.Values
      requires metrics.Valid()
    {
      Snapshot(queue.packets, metrics.Value(), lastUpdate)
    }

    /**
     * One pass of the loop. A packet that cannot be tabulated skips both the flush and the last update, as
     * the exception does.
     */
    method Pass(r: Readings)
      requires metrics.Valid()
      modifies this`lastUpdate, queue`packets, metrics, metrics.windowedMetrics.Values
      ensures metrics.Valid() && Now() == AfterPass(old(Now()), interval, r)
      ensures fresh(metrics.windowedMetrics.Values - old(metrics.windowedMetrics.Values))
      ensures old(queue.packets) == [] && r.idle - old(lastUpdate) <= interval * 1000000 ==> Now() == old(Now())
    {
      hide Tabulate, FlushAll;
      if queue.packets == [] {
        IdleAfterPass(Now(), interval, r);
      }
      var hand := queue.Pop();
      if hand.Some? {
        var outcome := metrics.TabulateMetrics(hand.value, r.classify, r.born);
        if outcome.NoIdentifier? || outcome.verdict.Rejected? {
          return;
        }
        metrics.UpdateAndResetWindowedMetrics(r.flush);
        lastUpdate := r.mark;
      } else if r.idle > lastUpdate + IntervalMicroseconds(interval) {
        metrics.UpdateAndResetWindowedMetrics(r.flush);
      }
    }

    method AddPackets(packets: seq<PacketValue>)
      requires metrics.Valid() && queue.maximumSize > 0
      modifies queue`packets
      ensures metrics.Valid() && Now() == AfterArrivals(old(Now()), queue.maximumSize, packets)
    {
      hide Pushed;
      var i := 0;
      while i < |packets|
        invariant i <= |packets|
        invariant queue.packets == PushedAll(old(queue.packets), queue.maximumSize, packets[..i])
      {
        assert ButLast(packets[..i + 1]) == packets[..i];
        var _ := queue.AddPacketCallback(packets[i]);
        i := i + 1;
      }
      assert packets[..i] == packets;
    }

    /** The loop: as many turns as there are before the stop flag is seen. */
    method TabulateMetrics(ts: seq<Turn>)
      requires metrics.Valid() && queue.maximumSize > 0
      modifies this`lastUpdate, queue`packets, metrics, metrics.windowedMetrics.Values
      ensures metrics.Valid() && Now() == AfterTurns(old(Now()), queue.maximumSize, interval, ts)
    {
      hide AfterPass, AfterArrivals;
      var i := 0;
      while i < |ts|
        invariant i <= |ts| && metrics.Valid()
        invariant fresh(metrics.windowedMetrics.Values - old(metrics.windowedMetrics.Values))
        invariant Now() == AfterTurns(old(Now()), queue.maximumSize, interval, ts[..i])
      {
        assert ButLast(ts[..i + 1]) == ts[..i];
        AddPackets(ts[i].before);
        Pass(ts[i].readings);
        AddPackets(ts[i].during);
        i := i + 1;
      }
      assert ts[..i] == ts;
    }
  }

  // ---- the steps compose to the pass ----

  /** Which of the readings the clock shows when the thread is at c. */
  function ReadingAt(c: Control, r: Readings): int {
    match c
    case Counted(_) => r.classify
    case CountedGood(_, _) => r.born
    case BeforeFlush(_) => r.flush
    case Marking => r.mark
    case _ => r.idle
  }

  function Rank(c: Control): nat {
    match c
    case Top => 0
    case Sleeping => 1
    case Marking => 1
    case Flushing(_, _) => 2
    case BeforeFlush(_) => 3
    case Idle => 4
    case IsFuture(_) => 4
    case IsExpired(_) => 4
    case CountedGood(_, _) => 4
    case CountedCumulativeGood(_, _) => 5
    case IsGood(_, _) => 6
    case Counted(_) => 7
    case CountedCumulative(_) => 8
    case InHand(_) => 9
  }

  lemma RankFalls(s: State)
    requires s.control != Top
    ensures Rank(Consumed(s).control) < Rank(s.control)
  {
    hide FlushedStreams, FlushAll, AddToWindow, StreamOf, Key, Classify;
  }

  /** The rest of a pass in small steps, with the clock moved before each of them. */
  function FinishPass(s: State, r: Readings): State
    decreases Rank(s.control)
  {
    if s.control == Top then s
    else
      var ready := s.(clock := ReadingAt(s.control, r));
      RankFalls(ready);
      FinishPass(Consumed(ready), r)
  }

  lemma FinishUnfold(s: State, r: Readings)
    requires s.control != Top
    ensures FinishPass(s, r) == FinishPass(Consumed(s.(clock := ReadingAt(s.control, r))), r)
  {
    hide Consumed;
  }

  lemma FlushComposes(s: State, r: Readings)
    requires s.control.BeforeFlush?
    ensures FinishPass(s, r).tables == FlushAll(s.tables, r.flush)
    ensures FinishPass(s, r).lastUpdate == if s.control.afterPacket then r.mark else s.lastUpdate
  {
    hide FlushedStreams, FlushAll;
    FinishUnfold(s, r);
    var s1 := Consumed(s.(clock := r.flush));
    FinishUnfold(s1, r);
    var s2 := Consumed(s1.(clock := r.idle));
    FinishUnfold(s2, r);
    hide FinishPass;
    var s3 := Consumed(s2.(clock := ReadingAt(s2.control, r)));
    assert s3.control == Top;
    FinishTop(s3, r);
  }

  lemma FinishTop(s: State, r: Readings)
    requires s.control == Top
    ensures FinishPass(s, r) == s
  {
  }

  lemma GoodComposes(s: State, r: Readings)
    requires s.control.IsGood?
    ensures
      var p, k := s.control.packet, Key(s.control.packet);
      var after := AddToWindow(CountReceived(CountCumulativeValid(s.tables), k), k,
                               Observation(p.samples, s.control.latency), r.born);
      FinishPass(s, r).tables == FlushAll(after, r.flush) && FinishPass(s, r).lastUpdate == r.mark
  {
    hide FlushAll, AddToWindow, CountReceived, CountCumulativeValid, Key, StreamOf, FinishPass;
    FinishUnfold(s, r);
    var s1 := Consumed(s.(clock := r.idle));
    FinishUnfold(s1, r);
    var s2 := Consumed(s1.(clock := r.idle));
    FinishUnfold(s2, r);
    var s3 := Consumed(s2.(clock := r.born));
    FlushComposes(s3, r);
  }

  lemma CountedComposes(s: State, r: Readings)
    requires s.control.Counted? && s.control.packet.id.Some?
    ensures
      var p, t := s.control.packet, s.tables;
      var k, v := Key(p), Classify(p, r.classify);
      var end := FinishPass(s, r);
      match v
      case Rejected(_) => end.tables == t && end.lastUpdate == s.lastUpdate
      case Future => end.tables == FlushAll(CountFuture(t, k), r.flush) && end.lastUpdate == r.mark
      case Expired => end.tables == FlushAll(CountExpired(t, k), r.flush) && end.lastUpdate == r.mark
      case Good(latency) =>
        && end.tables == FlushAll(AddToWindow(CountReceived(CountCumulativeValid(t), k), k,
                                              Observation(p.samples, latency), r.born), r.flush)
        && end.lastUpdate == r.mark
  {
    hide FlushAll, AddToWindow, CountReceived, CountCumulativeValid, CountFuture, CountExpired, Key, StreamOf,
      FinishPass, Classify;
    FinishUnfold(s, r);
    var s1 := Consumed(s.(clock := r.classify));
    match Classify(s.control.packet, r.classify)
    case Rejected(_) => FinishTop(s1, r);
    case Good(_) => GoodComposes(s1, r);
    case _ =>
      FinishUnfold(s1, r);
      FlushComposes(Consumed(s1.(clock := r.idle)), r);
  }

  /** The metrics thread's small steps, left undisturbed, have exactly the effect of the program's pass. */
  lemma StepsComposeToPass(s: State, r: Readings)
    requires s.control == Top
    ensures
      var popped := Consumed(s);
      var end := FinishPass(popped, r);
      && end.control == Top
      && Snapshot(popped.queue, end.tables, end.lastUpdate)
           == AfterPass(Snapshot(s.queue, s.tables, s.lastUpdate), s.config.interval, r)
  {
    var s1 := Consumed(s);
    EndsAtTop(s1, r);
    hide FlushAll, AddToWindow, CountReceived, CountCumulativeValid, CountFuture, CountExpired, StreamOf,
      FinishPass, Classify;
    FinishUnfold(s1, r);
    var s2 := Consumed(s1.(clock := r.idle));
    if s.queue == [] {
      if s2.control.BeforeFlush? {
        FlushComposes(s2, r);
      } else {
        FinishUnfold(s2, r);
        FinishTop(Consumed(s2.(clock := r.idle)), r);
      }
    } else if s.queue[0].id.None? {
      FinishTop(s2, r);
    } else {
      FinishUnfold(s2, r);
      CountedComposes(Consumed(s2.(clock := r.idle)), r);
    }
  }

  lemma {:induction false} EndsAtTop(s: State, r: Readings)
    ensures FinishPass(s, r).control == Top
    decreases Rank(s.control)
  {
    if s.control != Top {
      var ready := s.(clock := ReadingAt(s.control, r));
      RankFalls(ready);
      EndsAtTop(Consumed(ready), r);
      hide Consumed;
    }
  }

  // ---- arrivals at any points of the passes ----

  /** An arrival in the middle of a pass may be moved behind the step that follows it. */
  lemma ArrivalCommutes(s: State, p: BuiltPacket)
    requires s.config.Valid() && s.control != Top
    ensures Consumed(Arrived(s, p)) == Arrived(Consumed(s), p)
  {
    hide FlushAll, AddToWindow, CountReceived, CountCumulativeValid, CountFuture, CountExpired, Key, Classify, Pushed,
      Overflow;
  }

  lemma ArrivalLeaves(s: State, p: BuiltPacket, time: int)
    requires s.config.Valid()
    ensures Arrived(s, p).control == s.control && Arrived(s, p).config == s.config
    ensures Arrived(s, p).tables == s.tables && Arrived(s, p).lastUpdate == s.lastUpdate
    ensures Arrived(s, p).(clock := time) == Arrived(s.(clock := time), p)
  {
  }

  lemma ConsumedKeepsConfig(s: State)
    ensures Consumed(s).config == s.config
  {
    hide FlushedStreams, FlushAll, AddToWindow, StreamOf, Key, Classify;
  }

  function ArriveAll(s: State, packets: seq<BuiltPacket>): State
    requires s.config.Valid()
    decreases packets
  {
    if packets == [] then s else ArriveAll(Arrived(s, packets[0]), packets[1..])
  }

  lemma {:induction false} ArriveAllLeaves(s: State, packets: seq<BuiltPacket>)
    requires s.config.Valid()
    ensures
      var t := ArriveAll(s, packets);
      && t.control == s.control && t.config == s.config && t.tables == s.tables && t.lastUpdate == s.lastUpdate
      && t.queue == PushedAll(s.queue, s.config.capacity, packets)
    decreases packets
  {
    if packets != [] {
      ArrivalLeaves(s, packets[0], s.clock);
      ArriveAllLeaves(Arrived(s, packets[0]), packets[1..]);
      PushedFirst(s.queue, s.config.capacity, packets);
      assert Arrived(s, packets[0]).queue == Pushed<PacketValue>(s.queue, s.config.capacity, packets[0]);
      hide Arrived, Pushed, PushedAll;
    }
  }

  lemma {:induction false} PushedFirst(queue: seq<PacketValue>, capacity: nat, packets: seq<PacketValue>)
    requires capacity > 0 && packets != []
    ensures PushedAll(queue, capacity, packets)
         == PushedAll(Pushed(queue, capacity, packets[0]), capacity, packets[1..])
  {
    hide Pushed;
    if |packets| == 1 {
      assert ButLast(packets) == [] && packets[1..] == [];
    } else {
      PushedFirst(queue, capacity, ButLast(packets));
      assert ButLast(packets)[1..] == ButLast(packets[1..]);
    }
  }

  lemma AppendParts(first: seq<BuiltPacket>, second: seq<BuiltPacket>)
    requires first != []
    ensures (first + second)[0] == first[0] && (first + second)[1..] == first[1..] + second
  {
  }

  lemma {:induction false} ArriveAllAppend(s: State, first: seq<BuiltPacket>, second: seq<BuiltPacket>)
    requires s.config.Valid()
    ensures ArriveAll(s, first).config == s.config
    ensures ArriveAll(s, first + second) == ArriveAll(ArriveAll(s, first), second)
    decreases first
  {
    hide Arrived;
    if first == [] {
      assert first + second == second;
    } else {
      ArrivalLeaves(s, first[0], s.clock);
      AppendParts(first, second);
      ArriveAllAppend(Arrived(s, first[0]), first[1..], second);
    }
  }

  /** Any arrivals may be moved behind a step inside a pass. */
  lemma {:induction false} ArrivalsCommute(s: State, packets: seq<BuiltPacket>, time: int)
    requires s.config.Valid() && s.control != Top
    ensures Consumed(s).config == s.config
    ensures ArriveAll(s, packets).(clock := time) == ArriveAll(s.(clock := time), packets)
    ensures Consumed(ArriveAll(s, packets)) == ArriveAll(Consumed(s), packets)
    decreases packets
  {
    ConsumedKeepsConfig(s);
    if packets != [] {
      ArrivalLeaves(s, packets[0], time);
      ArrivalCommutes(s, packets[0]);
      ArrivalsCommute(Arrived(s, packets[0]), packets[1..], time);
      hide Arrived, Consumed;
    }
  }

  /** And behind all the rest of the pass. */
  lemma {:induction false} ArrivalsCommuteWithPass(s: State, r: Readings, packets: seq<BuiltPacket>)
    requires s.config.Valid()
    ensures FinishPass(s, r).config == s.config
    ensures FinishPass(ArriveAll(s, packets), r) == ArriveAll(FinishPass(s, r), packets)
    decreases Rank(s.control)
  {
    ArriveAllLeaves(s, packets);
    if s.control == Top {
      FinishTop(ArriveAll(s, packets), r);
    } else {
      var time := ReadingAt(s.control, r);
      var ready := s.(clock := time);
      ArrivalsCommute(s, packets, time);
      ArrivalsCommute(ready, packets, time);
      RankFalls(ready);
      FinishUnfold(s, r);
      FinishUnfold(ArriveAll(s, packets), r);
      ArrivalsCommuteWithPass(Consumed(ready), r, packets);
      hide Consumed, ArriveAll, FinishPass, PushedAll;
    }
  }

  function Concat(feed: seq<seq<BuiltPacket>>): seq<BuiltPacket> {
    if feed == [] then [] else feed[0] + Concat(feed[1..])
  }

  /** The rest of a pass, with the next part of the feed arriving before each step, and the rest of it at the end. */
  function FinishFed(s: State, r: Readings, feed: seq<seq<BuiltPacket>>): State
    requires s.config.Valid()
    decreases Rank(s.control)
  {
    if s.control == Top then ArriveAll(s, Concat(feed))
    else
      var now, later := if feed == [] then [] else feed[0], if feed == [] then [] else feed[1..];
      ArriveAllLeaves(s, now);
      var ready := ArriveAll(s, now).(clock := ReadingAt(s.control, r));
      RankFalls(ready);
      ConsumedKeepsConfig(ready);
      FinishFed(Consumed(ready), r, later)
  }

  lemma FedUnfold(
      s: State, r: Readings, now: seq<BuiltPacket>, later: seq<seq<BuiltPacket>>, feed: seq<seq<BuiltPacket>>)
    requires s.config.Valid() && s.control != Top
    requires now == if feed == [] then [] else feed[0]
    requires later == if feed == [] then [] else feed[1..]
    ensures
      var next := Consumed(s.(clock := ReadingAt(s.control, r)));
      && next.config == s.config && ArriveAll(next, now).config == s.config
      && FinishFed(s, r, feed) == FinishFed(ArriveAll(next, now), r, later)
      && Rank(next.control) < Rank(s.control) && ArriveAll(next, now).control == next.control
  {
    hide Consumed, ArriveAll, PushedAll, Concat;
    var time := ReadingAt(s.control, r);
    ArriveAllLeaves(s, now);
    ArrivalsCommute(s, now, time);
    ArrivalsCommute(s.(clock := time), now, time);
    ArriveAllLeaves(Consumed(s.(clock := time)), now);
    RankFalls(s.(clock := time));
    hide Rank, ReadingAt;
  }

  /** Wherever in the pass they arrive, the result is as if all of them arrived after it. */
  lemma {:induction false} FedPassIsPass(s: State, r: Readings, feed: seq<seq<BuiltPacket>>)
    requires s.config.Valid()
    ensures FinishPass(s, r).config == s.config
    ensures FinishFed(s, r, feed) == ArriveAll(FinishPass(s, r), Concat(feed))
    decreases Rank(s.control)
  {
    ArrivalsCommuteWithPass(s, r, []);
    if s.control == Top {
      FinishTop(s, r);
    } else {
      hide Concat, Consumed, FinishPass, FinishFed, ArriveAll, Rank, ReadingAt;
      var now, later := if feed == [] then [] else feed[0], if feed == [] then [] else feed[1..];
      var next := Consumed(s.(clock := ReadingAt(s.control, r)));
      FeedSplit(feed, now, later);
      FedUnfold(s, r, now, later, feed);
      FedPassIsPass(ArriveAll(next, now), r, later);
      ArrivalsCommuteWithPass(next, r, now);
      FinishUnfold(s, r);
      ArriveAllAppend(FinishPass(next, r), now, Concat(later));
    }
  }

  lemma FeedSplit(feed: seq<seq<BuiltPacket>>, now: seq<BuiltPacket>, later: seq<seq<BuiltPacket>>)
    requires now == if feed == [] then [] else feed[0]
    requires later == if feed == [] then [] else feed[1..]
    ensures Concat(feed) == now + Concat(later)
  {
  }

  /** One pass from the top of the loop, with arrivals before the packet is popped and before every later step. */
  datatype Fed = Fed(before: seq<BuiltPacket>, readings: Readings, during: seq<seq<BuiltPacket>>)

  function FedPass(s: State, f: Fed): (t: State)
    requires s.config.Valid()
  {
    ArriveAllLeaves(s, f.before);
    ConsumedKeepsConfig(ArriveAll(s, f.before));
    FinishFed(Consumed(ArriveAll(s, f.before)), f.readings, f.during)
  }

  function TurnOf(f: Fed): Turn {
    Turn(f.before, f.readings, Concat(f.during))
  }

  function SnapshotOf(s: State): Snapshot {
    Snapshot(s.queue, s.tables, s.lastUpdate)
  }

  lemma FedPassIsTurn(s: State, f: Fed)
    requires s.config.Valid() && s.control == Top
    ensures
      var t := FedPass(s, f);
      && t.control == Top && t.config == s.config
      && SnapshotOf(t) == AfterTurn(SnapshotOf(s), s.config.capacity, s.config.interval, TurnOf(f))
  {
    var s1 := ArriveAll(s, f.before);
    ArriveAllLeaves(s, f.before);
    ConsumedKeepsConfig(s1);
    var s2 := Consumed(s1);
    FedPassIsPass(s2, f.readings, f.during);
    StepsComposeToPass(s1, f.readings);
    FinishKeepsQueue(s2, f.readings);
    var s3 := FinishPass(s2, f.readings);
    ArriveAllLeaves(s3, Concat(f.during));
    hide Consumed, FinishPass, FinishFed, ArriveAll, PushedAll, AfterPass, Concat;
  }

  lemma {:induction false} FinishKeepsQueue(s: State, r: Readings)
    requires s.control != Top
    ensures FinishPass(s, r).queue == s.queue
    decreases Rank(s.control)
  {
    var next := Consumed(s.(clock := ReadingAt(s.control, r)));
    RankFalls(s.(clock := ReadingAt(s.control, r)));
    FinishUnfold(s, r);
    StepKeepsQueue(s.(clock := ReadingAt(s.control, r)));
    if next.control == Top {
      FinishTop(next, r);
    } else {
      FinishKeepsQueue(next, r);
    }
    hide Consumed, FinishPass;
  }

  lemma StepKeepsQueue(s: State)
    requires s.control != Top
    ensures Consumed(s).queue == s.queue
  {
    hide FlushedStreams, FlushAll, AddToWindow, StreamOf, Key, Classify;
  }

  function FedLoop(s: State, fs: seq<Fed>): State
    requires s.config.Valid() && s.control == Top
    ensures FedLoop(s, fs).config == s.config && FedLoop(s, fs).control == Top
  {
    if fs == [] then s
    else
      FedPassIsTurn(FedLoop(s, ButLast(fs)), Last(fs));
      FedPass(FedLoop(s, ButLast(fs)), Last(fs))
  }

  function Turns(fs: seq<Fed>): seq<Turn> {
    seq(|fs|, i requires 0 <= i < |fs| => TurnOf(fs[i]))
  }

  /**
   * The step system, with arrivals between any two steps of any passes, has exactly the effect on queue, singleton
   * and last update of the program's loop with the same arrivals at the ends of its turns.
   */
  lemma {:induction false} FedLoopIsProgram(s: State, fs: seq<Fed>)
    requires s.config.Valid() && s.control == Top
    ensures SnapshotOf(FedLoop(s, fs)) == AfterTurns(SnapshotOf(s), s.config.capacity, s.config.interval, Turns(fs))
  {
    hide FedPass, AfterTurn, TurnOf;
    if fs != [] {
      FedLoopIsProgram(s, ButLast(fs));
      FedPassIsTurn(FedLoop(s, ButLast(fs)), Last(fs));
      assert ButLast(Turns(fs)) == Turns(ButLast(fs)) && Last(Turns(fs)) == TurnOf(Last(fs));
    }
  }
}
