/** How often a stream's gauges are published on a clock that only moves forward. */
module Pacing {
  import opened Common
  import opened Metrics
  import opened Packets
  import opened Pipeline
  import opened WindowHistory
  import opened Windows

  function Interval(s: State): nat {
    IntervalMicroseconds(s.config.interval)
  }

  /** A run on a forward clock whose loop passes never take longer than d. */
  ghost predicate Paced(run: seq<State>, d: nat) {
    && (forall i :: 0 < i < |run| ==> run[i - 1].clock <= run[i].clock)
    && (forall i :: 0 <= i < |run| ==> run[i].clock <= run[i].passStart + d)
  }

  ghost predicate AllWellFormed(ps: seq<BuiltPacket>) {
    forall i :: 0 <= i < |ps| ==> WellFormed(ps[i])
  }

  /** The longest a window can stay unpublished: two intervals and three passes. */
  function MaximumGap(interval: nat, d: nat): nat {
    2 * interval + 3 * d
  }

  /** The stream's window is not older than the maximum gap, and none that was closed had been. */
  ghost predicate StreamKeepsPace(s: State, k: string, d: nat) {
    var gap := 2 * s.config.interval * 1000000 + 3 * d;
    && (k in s.tables.windows ==> s.clock <= s.tables.windows[k].lastUpdate + gap)
    && (forall c :: c in StreamOf(s.history, k).closed ==> c.at <= c.since + gap)
  }

  ghost predicate KeepsPace(run: seq<State>, d: nat) {
    forall i, k :: 0 <= i < |run| ==> StreamKeepsPace(run[i], k, d)
  }

  ghost predicate ArrivalsFrom(events: seq<Event>, packets: iset<BuiltPacket>) {
    forall i :: 0 <= i < |events| && events[i].Arrive? ==> events[i].packet in packets
  }

  /** What the metrics thread's own variables guarantee at each place in the loop. */
  ghost predicate ThreadTimed(s: State) {
    && s.passStart <= s.clock && s.lastUpdate <= s.clock
    && (s.control.Flushing? ==> s.passStart <= s.control.now <= s.clock)
    && AllWellFormed(s.queue)
    && (HasPacket(s.control) ==> WellFormed(s.control.packet))
  }

  /** What they guarantee about a window that was last published at the time it holds. */
  ghost predicate WindowTimed(s: State, w: Window, d: nat) {
    && w.interval == s.config.interval
    && w.lastUpdate <= s.clock
    && s.lastUpdate <= w.lastUpdate + Interval(s) + d
    && s.passStart <= Max(w.lastUpdate, s.lastUpdate) + Interval(s) + d
    && (s.control.Marking? ==> s.passStart < w.lastUpdate + Interval(s))
    && (s.control.Sleeping? ==>
          s.passStart <= s.lastUpdate + Interval(s) || s.passStart < w.lastUpdate + Interval(s))
  }

  ghost predicate StreamTimed(s: State, k: string, d: nat) {
    && (k in s.tables.windows ==> WindowTimed(s, s.tables.windows[k], d))
    && (forall i :: 0 <= i < |StreamOf(s.history, k).closed| ==>
          var c := StreamOf(s.history, k).closed[i];
          c.at <= c.since + MaximumGap(Interval(s), d))
  }

  /** No window is ever older than the maximum gap. */
  lemma TimedWindowIsFresh(s: State, w: Window, d: nat)
    requires WindowTimed(s, w, d) && s.clock <= s.passStart + d
    ensures s.clock <= w.lastUpdate + MaximumGap(Interval(s), d)
  {
  }

  lemma ThreadStep(s: State, e: Event, d: nat)
    requires s.config.Valid() && ThreadTimed(s)
    requires e.Arrive? ==> WellFormed(e.packet)
    requires e.SetClock? ==> s.clock <= e.time
    ensures ThreadTimed(Next(s, e))
  {
    hide FlushedStreams, FlushAll, AddToWindow, StreamOf, Key, EndTime;
  }

  lemma TickKeepsWindow(s: State, time: int, w: Window, d: nat)
    requires WindowTimed(s, w, d) && s.clock <= time
    ensures WindowTimed(s.(clock := time), w, d)
  {
  }

  /** A step of the metrics thread that leaves the window w as it is. */
  lemma ConsumeKeepsWindow(s: State, w: Window, d: nat)
    requires s.config.Valid() && ThreadTimed(s) && WindowTimed(s, w, d) && s.clock <= s.passStart + d
    requires s.control.Flushing? ==> !Due(w, s.control.now)
    ensures WindowTimed(Consumed(s), w, d)
  {
    hide FlushedStreams, FlushAll, AddToWindow, StreamOf, Key, EndTime;
  }

  /** A flush that closes the window w publishes it within the maximum gap, and starts a new period. */
  lemma FlushRenewsWindow(s: State, w: Window, d: nat)
    requires s.config.Valid() && ThreadTimed(s) && WindowTimed(s, w, d) && s.clock <= s.passStart + d
    requires s.control.Flushing? && Due(w, s.control.now)
    ensures WindowTimed(Consumed(s), Flushed(w, s.control.now), d)
    ensures s.control.now <= w.lastUpdate + MaximumGap(Interval(s), d)
  {
    hide FlushedStreams, FlushAll, CloseWith;
  }

  lemma NewWindowTimed(s: State, w: Window, d: nat)
    requires s.config.Valid() && ThreadTimed(s) && s.control.CountedGood?
    requires w.lastUpdate == s.clock && w.interval == s.config.interval
    ensures WindowTimed(Consumed(s), w, d)
  {
    hide AddToWindow, StreamOf, Key;
  }

  lemma SameWindowTimed(s: State, v: Window, w: Window, d: nat)
    requires WindowTimed(s, v, d) && w.interval == v.interval && w.lastUpdate == v.lastUpdate
    ensures WindowTimed(s, w, d)
  {
  }

  /** How one step of the metrics thread changes a stream's window, outside a flush. */
  lemma WindowTouched(s: State, k: string)
    requires !s.control.Flushing?
    ensures
      var a, b := s.tables, Consumed(s).tables;
      && StreamOf(Consumed(s).history, k).closed == StreamOf(s.history, k).closed
      && (k in b.windows ==>
            if k in a.windows then
              b.windows[k].interval == a.windows[k].interval && b.windows[k].lastUpdate == a.windows[k].lastUpdate
            else
              && s.control.CountedGood?
              && b.windows[k].interval == a.interval && b.windows[k].lastUpdate == s.clock)
  {
    hide FlushStep, Add, Key;
    if s.control.CountedGood? || s.control.CountedCumulativeGood? {
    } else {
      QuietStep(s);
      QuietTables(s);
      hide Consumed;
    }
  }

  lemma StreamTimedStep(s: State, e: Event, k: string, d: nat)
    requires s.config.Valid() && s.tables.interval == s.config.interval
    requires ThreadTimed(s) && s.clock <= s.passStart + d
    requires StreamValid(s, k) && StreamTimed(s, k, d)
    requires e.SetClock? ==> s.clock <= e.time
    ensures StreamTimed(Next(s, e), k, d)
  {
    if e.SetClock? {
      if k in s.tables.windows {
        TickKeepsWindow(s, e.time, s.tables.windows[k], d);
      }
    } else if e.Consume? && s.control.Flushing? {
      FlushStreamTimed(s, k, d);
    } else if e.Consume? {
      WindowTouched(s, k);
      var t := Consumed(s);
      hide Consumed, StreamValid, ThreadTimed, WindowTimed;
      assert t.config == s.config by {
        assert t == Next(s, e);
      }
      if k in t.tables.windows {
        var w := t.tables.windows[k];
        if k in s.tables.windows {
          ConsumeKeepsWindow(s, s.tables.windows[k], d);
          SameWindowTimed(t, s.tables.windows[k], w, d);
        } else {
          NewWindowTimed(s, w, d);
        }
      }
    }
  }

  lemma FlushStreamTimed(s: State, k: string, d: nat)
    requires s.config.Valid() && s.control.Flushing?
    requires ThreadTimed(s) && s.clock <= s.passStart + d
    requires StreamValid(s, k) && StreamTimed(s, k, d)
    ensures StreamTimed(Consumed(s), k, d)
  {
    FlushOfStream(s, k);
    hide Consumed, StreamValid, ThreadTimed, WindowTimed, StreamOf, Due, Flushed, MaximumGap;
    if k in s.tables.windows {
      var w := s.tables.windows[k];
      if Due(w, s.control.now) {
        FlushRenewsWindow(s, w, d);
      } else {
        NotDueStays(w, s.control.now);
        ConsumeKeepsWindow(s, w, d);
      }
    }
  }

  lemma NotDueStays(w: Window, now: int)
    requires !Due(w, now)
    ensures Flushed(w, now) == w
  {
  }

  ghost predicate TimedInvariant(s: State, d: nat) {
    StreamsInvariant(s) && ThreadTimed(s) && forall k :: StreamTimed(s, k, d)
  }

  lemma TimedStep(s: State, e: Event, d: nat)
    requires TimedInvariant(s, d) && s.clock <= s.passStart + d
    requires e.Arrive? ==> WellFormed(e.packet)
    requires e.SetClock? ==> s.clock <= e.time
    ensures TimedInvariant(Next(s, e), d)
  {
    StreamsStep(s, e);
    ThreadStep(s, e, d);
    forall k ensures StreamTimed(Next(s, e), k, d) {
      assert StreamValid(s, k) && StreamTimed(s, k, d);
      StreamTimedStep(s, e, k, d);
    }
    hide Next, StreamValid, StreamTimed, ThreadTimed;
  }

  lemma {:induction false} TimedOnRuns(
      run: seq<State>, events: seq<Event>, config: Config, clock: int, d: nat, i: nat)
    requires IsRun(run, events, config, clock) && Paced(run, d) && i < |run|
    requires forall j :: 0 <= j < |events| && events[j].Arrive? ==> WellFormed(events[j].packet)
    ensures TimedInvariant(run[i], d)
  {
    if i == 0 {
      StreamsOnRuns(run, events, config, clock, 0);
      forall k ensures StreamTimed(run[0], k, d) {
        assert StreamOf(run[0].history, k) == NO_STREAM;
      }
    } else {
      TimedOnRuns(run, events, config, clock, d, i - 1);
      assert run[i - 1].clock <= run[i].clock;
      TimedStep(run[i - 1], events[i - 1], d);
      hide TimedInvariant;
    }
  }

  /**
   * On a forward clock, with passes of at most d and no packet that would be rejected, no stream ever goes
   * longer than two intervals and three passes without a publication.
   */
  lemma PublicationsKeepPace(
      run: seq<State>, events: seq<Event>, config: Config, clock: int, d: nat, i: nat, k: string)
    requires IsRun(run, events, config, clock) && Paced(run, d) && i < |run|
    requires forall j :: 0 <= j < |events| && events[j].Arrive? ==> WellFormed(events[j].packet)
    ensures StreamKeepsPace(run[i], k, d)
    ensures
      var closed, gap := StreamOf(run[i].history, k).closed, 2 * config.interval * 1000000 + 3 * d;
      forall a :: 0 < a < |closed| ==>
        closed[a].since == closed[a - 1].at && closed[a].at <= closed[a - 1].at + gap
  {
    TimedOnRuns(run, events, config, clock, d, i);
    StreamsOnRuns(run, events, config, clock, i);
    var s := run[i];
    assert StreamTimed(s, k, d) && StreamValid(s, k);
    assert MaximumGap(Interval(s), d) == 2 * s.config.interval * 1000000 + 3 * d;
    if k in s.tables.windows {
      TimedWindowIsFresh(s, s.tables.windows[k], d);
    }
    hide IsRun, WindowTimed, TimedInvariant, StreamsInvariant;
  }

  // ---- no flush comes without a cause ----

  predicate AboutToFlush(c: Control) {
    c.BeforeFlush? || c.Flushing?
  }

  /** At step j the thread went on to a flush, for want of packets or after a packet, and it is still in it at i. */
  ghost predicate FlushDecided(run: seq<State>, events: seq<Event>, i: nat, j: nat, afterPacket: bool)
    requires i < |run| <= |events| + 1
  {
    && j < i && events[j].Consume?
    && (forall m :: j < m <= i ==> AboutToFlush(run[m].control))
    && run[j].lastUpdate == run[i].lastUpdate
    && (if afterPacket then run[j].control.IsFuture? || run[j].control.IsExpired? || run[j].control.CountedGood?
        else run[j].control == Idle && run[j].clock - run[j].lastUpdate > run[j].config.interval * 1000000)
  }

  /** What leads to a flush, and what becomes of an idle pass. */
  lemma FlushesBegin(s: State)
    ensures AboutToFlush(Consumed(s).control) ==>
      && Consumed(s).lastUpdate == s.lastUpdate
      && if AboutToFlush(s.control) then Consumed(s).control.afterPacket == s.control.afterPacket
         else if Consumed(s).control.afterPacket then
           s.control.IsFuture? || s.control.IsExpired? || s.control.CountedGood?
         else s.control == Idle && s.clock - s.lastUpdate > s.config.interval * 1000000
    ensures s.control == Idle ==>
      Consumed(s).control
        == if s.clock - s.lastUpdate > s.config.interval * 1000000 then BeforeFlush(false) else Sleeping
    ensures Consumed(s).lastUpdate == if s.control == Marking then s.clock else s.lastUpdate
    ensures Consumed(s).control == Marking <==> s.control.Flushing? && s.control.afterPacket
  {
    hide FlushedStreams, FlushAll, AddToWindow, StreamOf, Key, Classify;
  }

  lemma {:induction false} FlushesAreDecided(
      run: seq<State>, events: seq<Event>, config: Config, clock: int, i: nat)
    requires IsRun(run, events, config, clock) && i < |run| && AboutToFlush(run[i].control)
    ensures exists j: nat :: FlushDecided(run, events, i, j, run[i].control.afterPacket)
  {
    if i > 0 {
      var s, e := run[i - 1], events[i - 1];
      FlushesBegin(s);
      assert run[i] == Next(s, e);
      hide Consumed, IsRun;
      if AboutToFlush(s.control) {
        FlushesAreDecided(run, events, config, clock, i - 1);
        var j: nat :| FlushDecided(run, events, i - 1, j, s.control.afterPacket);
        assert FlushDecided(run, events, i, j, run[i].control.afterPacket);
      } else {
        assert FlushDecided(run, events, i, i - 1, run[i].control.afterPacket);
      }
    }
  }

  /**
   * A stream's window is closed only by a flush that either follows a packet in the same pass, or follows a look
   * at the empty queue when the clock showed more than the interval after the thread's last update.
   */
  lemma ClosuresHaveCause(run: seq<State>, events: seq<Event>, config: Config, clock: int, i: nat, k: string)
    requires IsRun(run, events, config, clock) && i < |events|
    requires StreamOf(run[i + 1].history, k).closed != StreamOf(run[i].history, k).closed
    ensures run[i].control.Flushing? && events[i].Consume?
    ensures exists j: nat :: FlushDecided(run, events, i, j, run[i].control.afterPacket)
  {
    var s := run[i];
    assert run[i + 1] == Next(s, events[i]);
    if events[i].Consume? && !s.control.Flushing? {
      WindowTouched(s, k);
    }
    hide IsRun, Consumed, StreamOf;
    assert s.control.Flushing?;
    FlushesAreDecided(run, events, config, clock, i);
  }

  // ---- the pace is kept only while every packet is well formed ----

  function Final(s: State, events: seq<Event>): State
    requires s.config.Valid()
    decreases events
  {
    if events == [] then s else Final(Next(s, events[0]), events[1..])
  }

  /** Paced, for the run that the events make from s. */
  ghost predicate PacedFrom(s: State, events: seq<Event>, d: nat)
    requires s.config.Valid()
    decreases events
  {
    && s.clock <= s.passStart + d
    && (events != [] ==>
          s.clock <= Next(s, events[0]).clock && PacedFrom(Next(s, events[0]), events[1..], d))
  }

  lemma {:induction false} PacedFromIsPaced(s: State, events: seq<Event>, d: nat)
    requires s.config.Valid() && PacedFrom(s, events, d)
    ensures Paced(RunFrom(s, events), d)
    ensures Last(RunFrom(s, events)) == Final(s, events)
    decreases events
  {
    if events != [] {
      PacedFromIsPaced(Next(s, events[0]), events[1..], d);
      hide Next;
    }
  }

  lemma PacedCons(s: State, e: Event, rest: seq<Event>, d: nat)
    requires s.config.Valid()
    ensures Final(s, [e] + rest) == Final(Next(s, e), rest)
    ensures PacedFrom(s, [e] + rest, d) <==>
      s.clock <= s.passStart + d && s.clock <= Next(s, e).clock && PacedFrom(Next(s, e), rest, d)
  {
    hide Next;
    assert ([e] + rest)[1..] == rest;
  }

  lemma ConsAppend<T>(first: seq<T>, second: seq<T>)
    requires first != []
    ensures first == [first[0]] + first[1..]
    ensures first + second == [first[0]] + (first[1..] + second)
  {
  }

  lemma {:induction false} PacedFromAppend(s: State, first: seq<Event>, second: seq<Event>, d: nat)
    requires s.config.Valid() && PacedFrom(s, first, d)
    requires Final(s, first).config.Valid() && PacedFrom(Final(s, first), second, d)
    ensures PacedFrom(s, first + second, d)
    ensures Final(s, first + second) == Final(Final(s, first), second)
    decreases first
  {
    if first == [] {
      assert first + second == second;
    } else {
      hide Next, Final, PacedFrom;
      var e, rest := first[0], first[1..];
      ConsAppend(first, second);
      PacedCons(s, e, rest, d);
      PacedCons(s, e, rest + second, d);
      PacedFromAppend(Next(s, e), rest, second, d);
    }
  }

  /** At the top of a new pass with nothing queued. */
  ghost predicate AtRest(s: State) {
    s.config.Valid() && s.control == Top && s.queue == [] && s.passStart == s.clock
  }

  /**
   * One packet that tabulation throws out, keeping the metrics thread busy for a whole pass. Without an
   * identifier it is thrown out at once, otherwise when it is classified.
   */
  function RejectedRound(p: BuiltPacket, time: int): seq<Event> {
    if p.id.None? then [Arrive(p), Consume, SetClock(time), Consume, SetClock(time), SetClock(time)]
    else [Arrive(p), Consume, Consume, Consume, SetClock(time), Consume]
  }

  ghost predicate ChangesNothing(s: State, events: seq<Event>, d: nat, time: int)
    requires s.config.Valid()
  {
    var t := Final(s, events);
    && PacedFrom(s, events, d)
    && AtRest(t) && t.config == s.config && t.clock == time
    && t.tables.windows == s.tables.windows && t.tables.published == s.tables.published
    && t.history.streams == s.history.streams
  }

  lemma UnnamedRound(s: State, p: BuiltPacket, d: nat)
    requires AtRest(s) && p.id.None?
    ensures ChangesNothing(s, RejectedRound(p, s.clock + d), d, s.clock + d)
  {
    hide Key, PacedFrom, Final;
    var es := RejectedRound(p, s.clock + d);
    var s1 := Next(s, es[0]);
    var s2 := Next(s1, es[1]);
    var s3 := Next(s2, es[2]);
    var s4 := Next(s3, es[3]);
    assert s1.queue == [p] && s2.control == InHand(p) && s3.clock == s.clock + d;
    assert s4.control == Top && s4.passStart == s4.clock == s.clock + d;
    RoundUnfolds(s, es, d);
  }

  lemma NamedRound(s: State, p: BuiltPacket, d: nat)
    requires AtRest(s) && p.id.Some? && !WellFormed(p)
    ensures ChangesNothing(s, RejectedRound(p, s.clock + d), d, s.clock + d)
  {
    hide Key, PacedFrom, Final;
    var es := RejectedRound(p, s.clock + d);
    var s1 := Next(s, es[0]);
    var s2 := Next(s1, es[1]);
    var s3 := Next(s2, es[2]);
    var s4 := Next(s3, es[3]);
    var s5 := Next(s4, es[4]);
    var s6 := Next(s5, es[5]);
    assert s1.queue == [p] && s2.control == InHand(p) && s3.control == CountedCumulative(p);
    assert s5.control == Counted(p) && s5.clock == s.clock + d;
    assert s6.control == Top && s6.passStart == s6.clock == s.clock + d;
    RoundUnfolds(s, es, d);
  }

  lemma Unfold(s: State, events: seq<Event>, i: nat, d: nat)
    requires s.config.Valid() && i < |events|
    ensures Final(s, events[i..]) == Final(Next(s, events[i]), events[i + 1..])
    ensures PacedFrom(s, events[i..], d) <==>
      && s.clock <= s.passStart + d && s.clock <= Next(s, events[i]).clock
      && PacedFrom(Next(s, events[i]), events[i + 1..], d)
  {
    hide Next;
    assert events[i..][1..] == events[i + 1..];
  }

  lemma RoundUnfolds(s: State, es: seq<Event>, d: nat)
    requires s.config.Valid() && |es| == 6
    ensures
      var s1 := Next(s, es[0]);
      var s2 := Next(s1, es[1]);
      var s3 := Next(s2, es[2]);
      var s4 := Next(s3, es[3]);
      var s5 := Next(s4, es[4]);
      var s6 := Next(s5, es[5]);
      && Final(s, es) == s6
      && (PacedFrom(s, es, d) <==>
            && (forall t :: t in [s, s1, s2, s3, s4, s5, s6] ==> t.clock <= t.passStart + d)
            && s.clock <= s1.clock <= s2.clock <= s3.clock <= s4.clock <= s5.clock <= s6.clock)
  {
    hide Next;
    var s1 := Next(s, es[0]);
    var s2 := Next(s1, es[1]);
    var s3 := Next(s2, es[2]);
    var s4 := Next(s3, es[3]);
    var s5 := Next(s4, es[4]);
    Unfold(s, es, 0, d);
    Unfold(s1, es, 1, d);
    Unfold(s2, es, 2, d);
    Unfold(s3, es, 3, d);
    Unfold(s4, es, 4, d);
    Unfold(s5, es, 5, d);
    assert es[0..] == es && es[6..] == [];
  }

  function RejectedRounds(p: BuiltPacket, time: int, d: nat, n: nat): seq<Event> {
    if n == 0 then [] else RejectedRounds(p, time, d, n - 1) + RejectedRound(p, time + n * d)
  }

  /**
   * Packets that are thrown out, arriving one per pass, keep the thread off both flush paths: for any n there is
   * a forward run with passes of at most d that publishes nothing for n * d.
   */
  lemma {:induction false} RejectedPacketsStarvePublication(s: State, p: BuiltPacket, d: nat, n: nat)
    requires AtRest(s) && !WellFormed(p)
    ensures ChangesNothing(s, RejectedRounds(p, s.clock, d, n), d, s.clock + n * d)
  {
    if n > 0 {
      RejectedPacketsStarvePublication(s, p, d, n - 1);
      var t := Final(s, RejectedRounds(p, s.clock, d, n - 1));
      assert (n - 1) * d + d == n * d;
      if p.id.None? {
        UnnamedRound(t, p, d);
      } else {
        NamedRound(t, p, d);
      }
      PacedFromAppend(s, RejectedRounds(p, s.clock, d, n - 1), RejectedRound(p, t.clock + d), d);
      hide Final, PacedFrom, RejectedRound;
    }
  }

  lemma {:induction false} RoundsBring(p: BuiltPacket, time: int, d: nat, n: nat, packets: iset<BuiltPacket>)
    requires p in packets
    ensures ArrivalsFrom(RejectedRounds(p, time, d, n), packets)
  {
    if n > 0 {
      RoundsBring(p, time, d, n - 1, packets);
      assert ArrivalsFrom(RejectedRound(p, time + n * d), packets);
    }
  }

  lemma {:induction false} ConsumingBringsNothing(n: nat, packets: iset<BuiltPacket>)
    ensures ArrivalsFrom(Repeat(Consume, n), packets)
  {
    if n > 0 {
      ConsumingBringsNothing(n - 1, packets);
    }
  }

  function Repeat(e: Event, n: nat): seq<Event> {
    if n == 0 then [] else [e] + Repeat(e, n - 1)
  }

  function ConsumedMany(s: State, n: nat): State
    decreases n
  {
    if n == 0 then s else ConsumedMany(Consumed(s), n - 1)
  }

  /** While the clock stands still every pass keeps its time. */
  lemma {:induction false} StandingClockIsPaced(s: State, n: nat, d: nat)
    requires s.config.Valid() && s.passStart <= s.clock <= s.passStart + d
    ensures PacedFrom(s, Repeat(Consume, n), d)
    ensures Final(s, Repeat(Consume, n)) == ConsumedMany(s, n)
    decreases n
  {
    if n > 0 {
      StandingClock(s);
      StandingClockIsPaced(Consumed(s), n - 1, d);
      assert Next(s, Consume) == Consumed(s);
      assert Repeat(Consume, n)[1..] == Repeat(Consume, n - 1);
      hide Next, Consumed;
    }
  }

  lemma StandingClock(s: State)
    ensures Consumed(s).clock == s.clock && Consumed(s).config == s.config
    ensures Consumed(s).passStart in {s.passStart, s.clock}
  {
    hide FlushedStreams, FlushAll, AddToWindow, StreamOf, Key, Classify;
  }

  lemma FirstPacketCounted(config: Config, clock: int, p: BuiltPacket)
    requires config.Valid() && p.id.Some? && Classify(p, clock).Good?
    ensures
      var s := Arrived(Init(config, clock), p);
      var t := Consumed(Consumed(Consumed(Consumed(Consumed(Consumed(s))))));
      && t.control == CountedGood(p, Classify(p, clock).latency) && t.queue == [] && t.clock == clock
      && t.config == config && t.tables.windows == map[] && t.tables.interval == config.interval
  {
    hide Key, Classify, FlushStep, Windowed;
    var s := Arrived(Init(config, clock), p);
    assert s.queue == [p];
    var s3 := Consumed(Consumed(Consumed(s)));
    assert s3.control == Counted(p) && s3.queue == [] && s3.clock == clock && s3.tables.windows == map[];
  }

  lemma NewWindowSurvivesFlush(s: State, p: BuiltPacket)
    requires s.config.Valid() && s.control.CountedGood? && s.control.packet == p && s.queue == []
    requires s.tables.windows == map[] && s.tables.interval == s.config.interval
    ensures
      var t := Consumed(Consumed(Consumed(Consumed(s))));
      && AtRest(t) && t.clock == s.clock && t.config == s.config
      && Key(p) in t.tables.windows && t.tables.windows[Key(p)].lastUpdate == s.clock
      && t.tables.windows[Key(p)].interval == s.config.interval
  {
    hide Key, Classify, Add, CloseWith, PublishAll, FlushedGauges, FlushedStreams, Received, Popped;
    var s2 := Consumed(Consumed(s));
    assert s2.control == Flushing(true, s.clock) && s2.queue == [] && s2.clock == s.clock;
    var w := s2.tables.windows[Key(p)];
    assert w.lastUpdate == s.clock && w.interval == s.config.interval && !Due(w, s.clock);
    hide Due;
    var s3 := Consumed(s2);
    assert s3.control == Marking && s3.tables.windows[Key(p)] == w;
  }

  /** A first good packet makes the stream's window and is followed by a flush that closes nothing. */
  lemma FirstPacketMakesWindow(config: Config, clock: int, p: BuiltPacket)
    requires config.Valid() && p.id.Some? && Classify(p, clock).Good?
    ensures
      var t := ConsumedMany(Arrived(Init(config, clock), p), 10);
      && AtRest(t) && t.clock == clock && t.config == config
      && Key(p) in t.tables.windows && t.tables.windows[Key(p)].lastUpdate == clock
      && t.tables.windows[Key(p)].interval == config.interval
  {
    var s := Arrived(Init(config, clock), p);
    FirstPacketCounted(config, clock, p);
    TenSteps(s);
    hide Consumed, Arrived, Init, Key, Classify, ConsumedMany, AtRest;
    NewWindowSurvivesFlush(Consumed(Consumed(Consumed(Consumed(Consumed(Consumed(s)))))), p);
  }

  lemma TenSteps(s: State)
    ensures
      var s3 := Consumed(Consumed(Consumed(s)));
      var s6 := Consumed(Consumed(Consumed(s3)));
      ConsumedMany(s, 10) == Consumed(Consumed(Consumed(Consumed(s6))))
  {
    hide Consumed;
    var s3 := Consumed(Consumed(Consumed(s)));
    var s6 := Consumed(Consumed(Consumed(s3)));
    assert ConsumedMany(s, 10) == ConsumedMany(s3, 7) == ConsumedMany(s6, 4);
  }

  /** From a fresh start: one good packet, then the other over and over, until the good one's stream is overdue. */
  lemma PaceFailsWithRejectedPackets(config: Config, clock: int, p: BuiltPacket, rejected: BuiltPacket, d: nat)
    requires config.Valid() && d > 0
    requires p.id.Some? && Classify(p, clock).Good? && !WellFormed(rejected)
    ensures exists run: seq<State>, events: seq<Event> ::
      && IsRun(run, events, config, clock) && Paced(run, d) && ArrivalsFrom(events, iset{p, rejected})
      && !StreamKeepsPace(Last(run), Key(p), d)
  {
    hide Key, Classify, WellFormed, IntervalMicroseconds, MaximumGap, Final, PacedFrom, Repeat, Paced, RunFrom;
    var start := Init(config, clock);
    var first := [Arrive(p)] + Repeat(Consume, 10);
    PacedCons(start, Arrive(p), Repeat(Consume, 10), d);
    StandingClockIsPaced(Next(start, Arrive(p)), 10, d);
    FirstPacketMakesWindow(config, clock, p);
    var rest := Final(start, first);
    var n := 2 * config.interval * 1000000 + 3 * d + 1;
    Multiple(n, d);
    RejectedPacketsStarvePublication(rest, rejected, d, n);
    var second := RejectedRounds(rejected, clock, d, n);
    PacedFromAppend(start, first, second, d);
    PacedFromIsPaced(start, first + second, d);
    RunFromIsRun(config, clock, first + second);
    ConsumingBringsNothing(10, iset{p, rejected});
    RoundsBring(rejected, clock, d, n, iset{p, rejected});
    hide Init, ConsumedMany, RejectedRounds, Next;
    var run := RunFrom(start, first + second);
    assert IsRun(run, first + second, config, clock) && Paced(run, d);
  }

  /**
   * For any packets among which one is good: every paced run that they make keeps the pace exactly when all of
   * them are well formed.
   */
  lemma PaceIffAllWellFormed(config: Config, clock: int, packets: iset<BuiltPacket>, p: BuiltPacket, d: nat)
    requires config.Valid() && d > 0
    requires p in packets && p.id.Some? && Classify(p, clock).Good?
    ensures (forall q :: q in packets ==> WellFormed(q)) <==>
      forall run: seq<State>, events: seq<Event> ::
        IsRun(run, events, config, clock) && Paced(run, d) && ArrivalsFrom(events, packets) ==> KeepsPace(run, d)
  {
    hide Init, Next, Paced, StreamKeepsPace, WellFormed, Classify;
    if q :| q in packets && !WellFormed(q) {
      PaceFailsWithRejectedPackets(config, clock, p, q, d);
      var run: seq<State>, events: seq<Event> :|
        && IsRun(run, events, config, clock) && Paced(run, d) && ArrivalsFrom(events, iset{p, q})
        && !StreamKeepsPace(Last(run), Key(p), d);
      assert ArrivalsFrom(events, packets) && !KeepsPace(run, d);
    } else {
      forall run: seq<State>, events: seq<Event>
        | IsRun(run, events, config, clock) && Paced(run, d) && ArrivalsFrom(events, packets)
        ensures KeepsPace(run, d)
      {
        forall i, k | 0 <= i < |run| ensures StreamKeepsPace(run[i], k, d) {
          PublicationsKeepPace(run, events, config, clock, d, i, k);
        }
      }
    }
  }

  lemma Multiple(n: nat, d: nat)
    requires d > 0
    ensures n * d >= n
  {
  }
}
