/** Where the counts and the good packets come from: each of them is an arrival, and every arrival counts once. */
module Provenance {
  import opened Common
  import opened Conservation
  import opened Counters
  import opened Metrics
  import opened PacketQueue
  import opened Packets
  import opened Pipeline
  import opened Windows

  predicate IsOf(p: PacketValue, k: string) {
    p.id.Some? && Key(p) == k
  }

  /** Those of the given arrivals that are named with the key k, in order. */
  function Named(arrivals: seq<BuiltPacket>, indices: seq<nat>, k: string): seq<nat> {
    if indices == [] then []
    else
      var i := Last(indices);
      Named(arrivals, ButLast(indices), k) + if i < |arrivals| && IsOf(arrivals[i], k) then [i] else []
  }

  // ---- totals ----

  /** A stream's total counts exactly the consumed arrivals with its key, but for the one not yet counted. */
  ghost predicate TotalCountsArrivals(s: State, k: string) {
    Get(s.tables.total, k) + One(Carrying(s.control) && IsOf(s.control.packet, k))
      == |Named(s.history.arrivals, s.history.consumed, k)|
  }

  lemma {:induction false} NamedKeeps(arrivals: seq<BuiltPacket>, p: BuiltPacket, indices: seq<nat>, k: string)
    requires forall i :: 0 <= i < |indices| ==> indices[i] < |arrivals|
    ensures Named(arrivals + [p], indices, k) == Named(arrivals, indices, k)
  {
    if indices != [] {
      NamedKeeps(arrivals, p, ButLast(indices), k);
    }
  }

  lemma NamedAppend(arrivals: seq<BuiltPacket>, indices: seq<nat>, i: nat, k: string)
    requires i < |arrivals|
    ensures Named(arrivals, indices + [i], k)
         == Named(arrivals, indices, k) + if IsOf(arrivals[i], k) then [i] else []
  {
    assert ButLast(indices + [i]) == indices;
  }

  lemma ConsumedBound(s: State)
    requires QueueInvariant(s)
    ensures forall i :: 0 <= i < |s.history.consumed| ==> s.history.consumed[i] < Gone(s) <= |s.history.arrivals|
  {
    var c := s.history.consumed;
    forall i | 0 <= i < |c| ensures c[i] < Gone(s) {
      if i < |c| - 1 {
        assert c[i] < c[|c| - 1];
      }
    }
  }

  lemma TotalOnArrival(s: State, p: BuiltPacket, k: string)
    requires QueueInvariant(s) && TotalCountsArrivals(s, k)
    ensures TotalCountsArrivals(Arrived(s, p), k)
  {
    ConsumedBound(s);
    NamedKeeps(s.history.arrivals, p, s.history.consumed, k);
    hide Named, QueueInvariant, Pushed, Get, IsOf;
  }

  lemma TotalOnPop(s: State, k: string)
    requires QueueInvariant(s) && s.control == Top && TotalCountsArrivals(s, k)
    ensures TotalCountsArrivals(Popped(s), k)
  {
    hide Named, Get, IsOf, Newest, LeaversPartitioned, DropsAreOverflow;
    if s.queue != [] {
      NewestTail(s.history.arrivals, |s.queue|);
      NamedAppend(s.history.arrivals, s.history.consumed, Gone(s), k);
    }
  }

  lemma TotalOnStep(s: State, k: string)
    requires s.control != Top && ControlValid(s.control) && TotalCountsArrivals(s, k)
    ensures TotalCountsArrivals(Consumed(s), k)
  {
    hide Consumed, Named, Get, Bump, Classify, Key;
    CountersTouched(s);
    OtherStepsLeaveQueueAlone(s);
    ControlMoves(s);
    if s.control.CountedCumulative? {
      GetBump(s.tables.total, Key(s.control.packet), k);
    }
  }

  lemma {:induction false} TotalsOnRuns(
      run: seq<State>, events: seq<Event>, config: Config, clock: int, i: nat, k: string)
    requires IsRun(run, events, config, clock) && i < |run|
    ensures TotalCountsArrivals(run[i], k)
  {
    if i > 0 {
      TotalsOnRuns(run, events, config, clock, i - 1, k);
      QueueOnRuns(run, events, config, clock, i - 1);
      CountersOnRuns(run, events, config, clock, i - 1);
      var s := run[i - 1];
      assert ControlValid(s.control);
      hide TotalCountsArrivals, QueueInvariant, CounterInvariant, Arrived, Consumed;
      match events[i - 1]
      case Arrive(p) => TotalOnArrival(s, p, k);
      case SetClock(t) => ClockKeepsTotals(s, t, k);
      case Consume =>
        if s.control == Top {
          TotalOnPop(s, k);
          TopPops(s);
        } else {
          TotalOnStep(s, k);
        }
    }
  }

  lemma ClockKeepsTotals(s: State, time: int, k: string)
    requires TotalCountsArrivals(s, k)
    ensures TotalCountsArrivals(s.(clock := time), k)
  {
  }

  lemma TopPops(s: State)
    requires s.control == Top
    ensures Consumed(s) == Popped(s)
  {
  }

  /** The indices of the arrivals that are still queued. */
  function Waiting(s: State): seq<nat> {
    seq(|s.queue|, i => Max(0, Gone(s)) + i)
  }

  lemma ArrivalsPartitioned(s: State)
    requires QueueInvariant(s)
    ensures multiset(s.history.consumed) + multiset(Indices(s.history.drops)) + multiset(Waiting(s))
         == multiset(Range(|s.history.arrivals|))
  {
    assert Range(|s.history.arrivals|) == Range(Gone(s)) + Waiting(s);
    hide Range, Waiting, Indices, Increasing, Newest;
  }

  /** Conservation with the totals spelled out: each consumed arrival is counted once, under its own key. */
  lemma TotalsCountArrivals(run: seq<State>, events: seq<Event>, config: Config, clock: int, i: nat, k: string)
    requires IsRun(run, events, config, clock) && i < |run|
    ensures
      var s := run[i];
      Get(s.tables.total, k)
        == |Named(s.history.arrivals, s.history.consumed, k)| - One(Carrying(s.control) && IsOf(s.control.packet, k))
    ensures
      var s := run[i];
      multiset(s.history.consumed) + multiset(Indices(s.history.drops)) + multiset(Waiting(s))
        == multiset(Range(|s.history.arrivals|))
  {
    TotalsOnRuns(run, events, config, clock, i, k);
    QueueOnRuns(run, events, config, clock, i);
    ArrivalsPartitioned(run[i]);
    hide Named, IsOf, Range, Waiting, Indices, QueueInvariant, IsRun;
  }

  // ---- good packets ----

  /** The observation is what the arrival gives when the clock shows its end plus the latency. */
  ghost predicate IsObservationOf(p: BuiltPacket, o: Observation) {
    o.samples == p.samples && Classify(p, p.end + o.latency) == Good(o.latency)
  }

  /** The packet in hand was classified by its own latency. */
  ghost predicate HandClassified(c: Control) {
    c.IsGood? || c.CountedCumulativeGood? || c.CountedGood? ==>
      Classify(c.packet, c.packet.end + c.latency) == Good(c.latency)
  }

  /** Each good packet of a stream is an arrival with its key, and they are listed in the order of arrival. */
  ghost predicate GoodAreArrivals(s: State, k: string) {
    var st, h := StreamOf(s.history, k), s.history;
    && |st.sources| == |st.good|
    && Increasing(st.sources)
    && (forall i :: 0 <= i < |st.sources| ==>
          && st.sources[i] in h.consumed && st.sources[i] < |h.arrivals|
          && IsOf(h.arrivals[st.sources[i]], k)
          && IsObservationOf(h.arrivals[st.sources[i]], st.good[i]))
  }

  /** What comes last in a stream's list came no later than the packet in hand, and earlier if that is undecided. */
  ghost predicate SourcesBehind(s: State, k: string) {
    var sources, consumed := StreamOf(s.history, k).sources, s.history.consumed;
    sources != [] ==>
      && consumed != []
      && Last(sources) <= Last(consumed)
      && (Carrying(s.control) || Undecided(s.control) ==> Last(sources) < Last(consumed))
  }

  ghost predicate GoodTraced(s: State, k: string) {
    GoodAreArrivals(s, k) && SourcesBehind(s, k)
  }

  lemma HandClassifiedStep(s: State)
    requires HandClassified(s.control)
    ensures HandClassified(Consumed(s).control)
  {
    if s.control.Counted? {
      GoodPackets(s.control.packet, s.clock);
    }
    hide FlushStep, Key, Classify, Bump;
  }

  lemma TracedOnArrival(s: State, p: BuiltPacket, k: string)
    requires s.config.Valid() && GoodTraced(s, k)
    ensures GoodTraced(Arrived(s, p), k)
  {
    hide Pushed, IsOf, IsObservationOf;
    assert StreamOf(Arrived(s, p).history, k) == StreamOf(s.history, k);
  }

  lemma TracedOnPop(s: State, k: string)
    requires QueueInvariant(s) && s.control == Top && GoodTraced(s, k)
    ensures GoodTraced(Popped(s), k)
  {
    hide IsOf, IsObservationOf, Newest, Range, Indices, Increasing;
    assert StreamOf(Popped(s).history, k) == StreamOf(s.history, k);
  }

  lemma TracedOnReceipt(s: State, k: string)
    requires s.control.CountedCumulativeGood? && ControlValid(s.control) && HandClassified(s.control)
    requires InHandIsLastConsumed(s) && GoodTraced(s, k)
    ensures GoodTraced(Consumed(s), k)
  {
    var t := Consumed(s);
    var p, o := s.control.packet, Observation(s.control.packet.samples, s.control.latency);
    var st, ut := StreamOf(s.history, k), StreamOf(t.history, k);
    assert t.history.consumed == s.history.consumed && t.history.arrivals == s.history.arrivals;
    hide Consumed, Classify;
    if k == Key(p) {
      var last := Last(s.history.consumed);
      assert ut.good == st.good + [o] && ut.sources == st.sources + [last];
      IncreasingAppend(st.sources, last);
      assert IsOf(p, k) && IsObservationOf(p, o);
      hide Key, StreamOf, IsOf, IsObservationOf, Increasing;
      assert last in s.history.consumed;
    } else {
      assert ut == st;
    }
  }

  /** Every other step leaves the traced part of the streams alone. */
  lemma SourcesUntouched(s: State, k: string)
    requires !s.control.CountedCumulativeGood?
    ensures StreamOf(Consumed(s).history, k).good == StreamOf(s.history, k).good
    ensures StreamOf(Consumed(s).history, k).sources == StreamOf(s.history, k).sources
  {
    hide FlushAll, AddToWindow, Classify, Bump, Key, Flushed, Due;
  }

  lemma TracedOnStep(s: State, k: string)
    requires s.control != Top && !s.control.CountedCumulativeGood? && GoodTraced(s, k)
    ensures GoodTraced(Consumed(s), k)
  {
    SourcesUntouched(s, k);
    OtherStepsLeaveQueueAlone(s);
    ControlMoves(s);
    hide Consumed, StreamOf, IsOf, IsObservationOf, Increasing, Classify;
  }

  lemma {:induction false} TracedOnRuns(
      run: seq<State>, events: seq<Event>, config: Config, clock: int, i: nat, k: string)
    requires IsRun(run, events, config, clock) && i < |run|
    ensures GoodTraced(run[i], k) && HandClassified(run[i].control)
  {
    if i > 0 {
      TracedOnRuns(run, events, config, clock, i - 1, k);
      QueueOnRuns(run, events, config, clock, i - 1);
      CountersOnRuns(run, events, config, clock, i - 1);
      var s := run[i - 1];
      assert ControlValid(s.control) && InHandIsLastConsumed(s);
      hide GoodTraced, QueueInvariant, CounterInvariant, Arrived, Consumed, HandClassified;
      match events[i - 1]
      case Arrive(p) =>
        TracedOnArrival(s, p, k);
        assert run[i].control == s.control by {
          ArrivalKeepsControl(s, p);
        }
      case SetClock(t) => ClockKeepsTrace(s, t, k);
      case Consume =>
        HandClassifiedStep(s);
        if s.control == Top {
          TracedOnPop(s, k);
          TopPops(s);
        } else if s.control.CountedCumulativeGood? {
          TracedOnReceipt(s, k);
        } else {
          TracedOnStep(s, k);
        }
    }
  }

  lemma ArrivalKeepsControl(s: State, p: BuiltPacket)
    requires s.config.Valid()
    ensures Arrived(s, p).control == s.control
  {
  }

  lemma ClockKeepsTrace(s: State, time: int, k: string)
    requires GoodTraced(s, k)
    ensures GoodTraced(s.(clock := time), k)
  {
  }

  /** At some earlier step the clock, read to classify this packet, showed its end plus the latency. */
  ghost predicate LatencyWasRead(run: seq<State>, i: nat, p: BuiltPacket, latency: int)
    requires i <= |run|
  {
    exists j :: 0 <= j < i && run[j].control == Counted(p) && run[j].clock == p.end + latency
  }

  ghost predicate HandWasRead(run: seq<State>, i: nat)
    requires i < |run|
  {
    var c := run[i].control;
    c.IsGood? || c.CountedCumulativeGood? || c.CountedGood? ==> LatencyWasRead(run, i, c.packet, c.latency)
  }

  lemma HandMoves(s: State)
    ensures
      var c, d := s.control, Consumed(s).control;
      d.IsGood? || d.CountedCumulativeGood? || d.CountedGood? ==>
        if c.Counted? then d.packet == c.packet && d.latency == s.clock - c.packet.end
        else (c.IsGood? || c.CountedCumulativeGood?) && d.packet == c.packet && d.latency == c.latency
  {
    if s.control.Counted? {
      GoodPackets(s.control.packet, s.clock);
    }
    hide FlushStep, Key, Classify, Bump, EndTime;
  }

  lemma {:induction false} HandReadOnRuns(run: seq<State>, events: seq<Event>, config: Config, clock: int, i: nat)
    requires IsRun(run, events, config, clock) && i < |run|
    ensures HandWasRead(run, i)
  {
    if i > 0 {
      HandReadOnRuns(run, events, config, clock, i - 1);
      var s := run[i - 1];
      HandMoves(s);
      assert run[i] == Next(s, events[i - 1]);
      hide Consumed;
    }
  }

  lemma {:induction false} GoodReadOnRuns(
      run: seq<State>, events: seq<Event>, config: Config, clock: int, i: nat, k: string, n: nat)
    requires IsRun(run, events, config, clock) && i < |run|
    requires n < |StreamOf(run[i].history, k).good|
    ensures GoodAreArrivals(run[i], k)
    ensures
      var st := StreamOf(run[i].history, k);
      LatencyWasRead(run, i, run[i].history.arrivals[st.sources[n]], st.good[n].latency)
    decreases i
  {
    TracedOnRuns(run, events, config, clock, i, k);
    assert GoodTraced(run[i], k);
    if i > 0 {
      var s, t := run[i - 1], run[i];
      TracedOnRuns(run, events, config, clock, i - 1, k);
      assert GoodTraced(s, k);
      StreamsGrow(s, events[i - 1], k);
      if n < |StreamOf(s.history, k).good| {
        GoodReadOnRuns(run, events, config, clock, i - 1, k, n);
      } else {
        HandReadOnRuns(run, events, config, clock, i - 1);
        QueueOnRuns(run, events, config, clock, i - 1);
        assert InHandIsLastConsumed(s);
      }
      hide IsRun, GoodTraced, QueueInvariant;
    }
  }

  /** One step appends at most the packet in hand, taken from the last consumed arrival. */
  lemma StreamsGrow(s: State, e: Event, k: string)
    requires s.config.Valid()
    ensures s.history.arrivals <= Next(s, e).history.arrivals
    ensures
      var st, ut, c := StreamOf(s.history, k), StreamOf(Next(s, e).history, k), s.control;
      || (ut.good == st.good && ut.sources == st.sources)
      || (c.CountedCumulativeGood? && ut.good == st.good + [Observation(c.packet.samples, c.latency)]
          && Next(s, e).history.arrivals == s.history.arrivals
          && ut.sources == st.sources + [if s.history.consumed != [] then Last(s.history.consumed) else 0])
  {
    if e.Consume? && !s.control.CountedCumulativeGood? {
      SourcesUntouched(s, k);
      HistoryTouched(s);
      hide Consumed;
    }
    hide Key, Bump, Pushed;
  }

  /**
   * Every good packet of a stream is one of the consumed arrivals with its key, in order of arrival and none
   * twice, with that arrival's samples and the latency it had when the clock was read to classify it.
   */
  lemma GoodPacketsAreArrivals(
      run: seq<State>, events: seq<Event>, config: Config, clock: int, i: nat, k: string)
    requires IsRun(run, events, config, clock) && i < |run|
    ensures GoodAreArrivals(run[i], k)
    ensures
      var st, arrivals := StreamOf(run[i].history, k), run[i].history.arrivals;
      forall n :: 0 <= n < |st.good| ==> LatencyWasRead(run, i, arrivals[st.sources[n]], st.good[n].latency)
  {
    TracedOnRuns(run, events, config, clock, i, k);
    var st, arrivals := StreamOf(run[i].history, k), run[i].history.arrivals;
    forall n | 0 <= n < |st.good| ensures LatencyWasRead(run, i, arrivals[st.sources[n]], st.good[n].latency) {
      GoodReadOnRuns(run, events, config, clock, i, k, n);
    }
    hide IsRun, LatencyWasRead;
  }

  // ---- packets that are not good ----

  /** The packet can be classified, and at the clock time now it would not have ended yet. */
  predicate EndsLater(p: PacketValue, now: int) {
    p.samples.Size() > 0 && p.rate > 0.0 && p.end > now
  }

  /** The packet has ended by now, and began more than 180 days before. */
  predicate BeganTooEarly(p: PacketValue, now: int) {
    p.samples.Size() > 0 && p.rate > 0.0 && p.end <= now && p.start < now - 180 * 24 * 60 * 60 * 1000000
  }

  /** At some earlier step the clock was read to classify this packet, and showed it to be future or expired. */
  ghost predicate VerdictWasRead(run: seq<State>, i: nat)
    requires i < |run|
  {
    var c := run[i].control;
    && (c.IsFuture? ==>
          exists j :: 0 <= j < i && run[j].control == Counted(c.packet) && EndsLater(c.packet, run[j].clock))
    && (c.IsExpired? ==>
          exists j :: 0 <= j < i && run[j].control == Counted(c.packet) && BeganTooEarly(c.packet, run[j].clock))
  }

  lemma VerdictMoves(s: State)
    ensures
      var c, d := s.control, Consumed(s).control;
      && (d.IsFuture? ==> c == Counted(d.packet) && EndsLater(d.packet, s.clock))
      && (d.IsExpired? ==> c == Counted(d.packet) && BeganTooEarly(d.packet, s.clock))
  {
    if s.control.Counted? {
      OtherVerdicts(s.control.packet, s.clock);
    }
    hide FlushStep, Key, Classify, Bump, EndTime;
  }

  lemma {:induction false} VerdictReadOnRuns(run: seq<State>, events: seq<Event>, config: Config, clock: int, i: nat)
    requires IsRun(run, events, config, clock) && i < |run|
    ensures VerdictWasRead(run, i)
  {
    if i > 0 {
      VerdictReadOnRuns(run, events, config, clock, i - 1);
      var s := run[i - 1];
      VerdictMoves(s);
      assert run[i] == Next(s, events[i - 1]);
      hide Consumed, EndsLater, BeganTooEarly;
    }
  }

  /**
   * In every run a stream's future count rises by one exactly when the thread has a packet of that stream that was
   * not yet over when the clock was read to classify it, and its expired count when it has one that began more than
   * 180 days before.
   */
  lemma FutureAndExpiredCounts(
      run: seq<State>, events: seq<Event>, config: Config, clock: int, i: nat, k: string)
    requires IsRun(run, events, config, clock) && i < |events|
    ensures VerdictWasRead(run, i)
    ensures
      var a, b, c := run[i].tables, run[i + 1].tables, run[i].control;
      && Get(b.future, k) == Get(a.future, k) + One(events[i].Consume? && c.IsFuture? && Key(c.packet) == k)
      && Get(b.expired, k) == Get(a.expired, k) + One(events[i].Consume? && c.IsExpired? && Key(c.packet) == k)
  {
    VerdictReadOnRuns(run, events, config, clock, i);
    var s := run[i];
    assert run[i + 1] == Next(s, events[i]);
    CountersTouched(s);
    if HasPacket(s.control) {
      GetBump(s.tables.future, Key(s.control.packet), k);
      GetBump(s.tables.expired, Key(s.control.packet), k);
    }
    hide Consumed, Get, Bump, Key, VerdictWasRead, IsRun;
  }
}
