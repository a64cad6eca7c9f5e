/**
 * The ingest pipeline as a step system: a reader that pushes, one metrics thread that pops and
 * tabulates in small steps, and a clock that may jump either way. Every step is one access to shared
 * state under one lock, one atomic increment, or one reading of the clock, so that anything another
 * thread can observe between two such accesses is a state of the system.
 */
module Pipeline {
  import opened Common
  import opened Counters
  import opened Metrics
  import opened PacketQueue
  import opened Packets
  import opened StreamNames
  import opened Windows

  datatype Config = Config(capacity: nat, interval: nat) {
    predicate Valid() {
      capacity > 0 && interval > 0
    }
  }

  /** Where the metrics thread is. */
  datatype Control =
    | Top                                                        // about to pop
    | InHand(packet: BuiltPacket)                                // popped
    | CountedCumulative(packet: BuiltPacket)                     // after the cumulative total
    | Counted(packet: BuiltPacket)                               // after the stream's total
    | IsFuture(packet: BuiltPacket)
    | IsExpired(packet: BuiltPacket)
    | IsGood(packet: BuiltPacket, latency: int)
    | CountedCumulativeGood(packet: BuiltPacket, latency: int)   // after the cumulative valid count
    | CountedGood(packet: BuiltPacket, latency: int)             // after the stream's received count
    | BeforeFlush(afterPacket: bool)                             // about to read the flush time
    | Flushing(afterPacket: bool, now: int)                      // about to take the lock
    | Marking                                                    // about to store the local last update
    | Idle                                                       // found the queue empty
    | Sleeping

  /** One closed window: its packets, when it opened and closed, and what it published. */
  datatype Closure = Closure(packets: seq<Observation>, since: int, at: int, gauges: Gauges)

  /**
   * What happened to one stream: its good packets, which arrivals they were, its closed windows and the packets
   * of the open one.
   */
  datatype Stream = Stream(good: seq<Observation>, sources: seq<nat>, closed: seq<Closure>, open: seq<Observation>)

  /** A drop: the index of the packet among the arrivals, and how many packets had arrived by then. */
  datatype Drop = Drop(index: nat, arrived: nat)

  datatype History = History(
    arrivals: seq<BuiltPacket>, consumed: seq<nat>, drops: seq<Drop>,
    unnamed: nat, rejected: Counter, streams: map<string, Stream>)

  datatype State = State(
    config: Config, clock: int, queue: seq<BuiltPacket>, control: Control,
    lastUpdate: int, passStart: int, tables: Tables, history: History)

  datatype Event =
    | Arrive(packet: BuiltPacket)
    | SetClock(time: int)
    | Consume

  const NO_STREAM := Stream([], [], [], [])

  function StreamOf(h: History, k: string): Stream {
    if k in h.streams then h.streams[k] else NO_STREAM
  }

  function Key(p: PacketValue): string {
    if p.id.Some? then ToKeyName(p.id.value) else ""
  }

  function Init(config: Config, clock: int): State {
    State(config, clock, [], Top, clock, clock, EmptyTables(config.interval), History([], [], [], 0, map[], map[]))
  }

  function Arrived(s: State, p: BuiltPacket): State
    requires s.config.Valid()
  {
    var h := s.history;
    var dropped := Overflow(|s.queue|, s.config.capacity);
    var drops := if dropped > 0 && |h.arrivals| >= |s.queue|
      then h.drops + [Drop(|h.arrivals| - |s.queue|, |h.arrivals| + 1)] else h.drops;
    s.(queue := Pushed(s.queue, s.config.capacity, p), history := h.(arrivals := h.arrivals + [p], drops := drops))
  }

  /** Back to the top of the loop, where a new pass begins. */
  function ToTop(s: State): State {
    s.(control := Top, passStart := s.clock)
  }

  function Popped(s: State): State {
    if s.queue == [] then s.(control := Idle)
    else
      var h := s.history;
      var index := if |h.arrivals| >= |s.queue| then |h.arrivals| - |s.queue| else 0;
      s.(queue := s.queue[1..], control := InHand(s.queue[0]), history := h.(consumed := h.consumed + [index]))
  }

  function Classified(s: State, p: BuiltPacket): State {
    match Classify(p, s.clock)
    case Rejected(_) => ToTop(s.(history := s.history.(rejected := Bump(s.history.rejected, Key(p)))))
    case Future => s.(control := IsFuture(p))
    case Expired => s.(control := IsExpired(p))
    case Good(latency) => s.(control := IsGood(p, latency))
  }

  function Received(s: State, p: BuiltPacket, latency: int): State {
    var h, k := s.history, Key(p);
    var st, source := StreamOf(h, k), if h.consumed != [] then Last(h.consumed) else 0;
    var counted := st.(good := st.good + [Observation(p.samples, latency)], sources := st.sources + [source]);
    s.(control := CountedGood(p, latency), tables := CountReceived(s.tables, k),
       history := h.(streams := h.streams[k := counted]))
  }

  function Windowed(s: State, p: BuiltPacket, latency: int): State {
    var h, k, o := s.history, Key(p), Observation(p.samples, latency);
    var st := StreamOf(h, k);
    s.(control := BeforeFlush(true), tables := AddToWindow(s.tables, k, o, s.clock),
       history := h.(streams := h.streams[k := st.(open := st.open + [o])]))
  }

  function ClosedStream(st: Stream, w: Window, now: int): Stream {
    st.(closed := st.closed + [Closure(st.open, w.lastUpdate, now, Flushed(w, now).gauges)], open := [])
  }

  function FlushedStreams(h: History, windows: map<string, Window>, now: int): map<string, Stream> {
    map k | k in h.streams ::
      if k in windows && Due(windows[k], now) then ClosedStream(h.streams[k], windows[k], now) else h.streams[k]
  }

  function FlushStep(s: State, afterPacket: bool, now: int): State {
    s.(control := if afterPacket then Marking else Sleeping,
       tables := FlushAll(s.tables, now),
       history := s.history.(streams := FlushedStreams(s.history, s.tables.windows, now)))
  }

  function Consumed(s: State): State {
    match s.control
    case Top => Popped(s)
    case InHand(p) =>
      if p.id.None? then ToTop(s.(history := s.history.(unnamed := s.history.unnamed + 1)))
      else s.(control := CountedCumulative(p), tables := CountCumulativeTotal(s.tables))
    case CountedCumulative(p) => s.(control := Counted(p), tables := CountTotal(s.tables, Key(p)))
    case Counted(p) => Classified(s, p)
    case IsFuture(p) => s.(control := BeforeFlush(true), tables := CountFuture(s.tables, Key(p)))
    case IsExpired(p) => s.(control := BeforeFlush(true), tables := CountExpired(s.tables, Key(p)))
    case IsGood(p, latency) =>
      s.(control := CountedCumulativeGood(p, latency), tables := CountCumulativeValid(s.tables))
    case CountedCumulativeGood(p, latency) => Received(s, p, latency)
    case CountedGood(p, latency) => Windowed(s, p, latency)
    case BeforeFlush(afterPacket) => s.(control := Flushing(afterPacket, s.clock))
    case Flushing(afterPacket, now) => FlushStep(s, afterPacket, now)
    case Marking => ToTop(s.(lastUpdate := s.clock))
    case Idle =>
      if s.clock > s.lastUpdate + IntervalMicroseconds(s.config.interval) then s.(control := BeforeFlush(false))
      else s.(control := Sleeping)
    case Sleeping => ToTop(s)
  }

  function Next(s: State, e: Event): State
    requires s.config.Valid()
    ensures Next(s, e).config == s.config
  {
    match e
    case Arrive(p) => Arrived(s, p)
    case SetClock(t) => s.(clock := t)
    case Consume => Consumed(s)
  }

  /** A run: the states that a list of events visits from a fresh start. */
  ghost predicate IsRun(run: seq<State>, events: seq<Event>, config: Config, clock: int) {
    && config.Valid()
    && |run| == |events| + 1
    && run[0] == Init(config, clock)
    && forall i :: 0 <= i < |events| ==> run[i].config == config && run[i + 1] == Next(run[i], events[i])
  }

  function RunFrom(s: State, events: seq<Event>): (run: seq<State>)
    requires s.config.Valid()
    ensures |run| == |events| + 1 && run[0] == s
    ensures forall i :: 0 <= i < |run| ==> run[i].config == s.config
    decreases events
  {
    if events == [] then [s] else [s] + RunFrom(Next(s, events[0]), events[1..])
  }

  lemma {:induction false} RunFromSteps(s: State, events: seq<Event>, i: nat)
    requires s.config.Valid() && i < |events|
    ensures RunFrom(s, events)[i + 1] == Next(RunFrom(s, events)[i], events[i])
    decreases events
  {
    if i > 0 {
      RunFromSteps(Next(s, events[0]), events[1..], i - 1);
    }
  }

  lemma RunFromIsRun(config: Config, clock: int, events: seq<Event>)
    requires config.Valid()
    ensures IsRun(RunFrom(Init(config, clock), events), events, config, clock)
  {
    forall i | 0 <= i < |events|
      ensures RunFrom(Init(config, clock), events)[i + 1] == Next(RunFrom(Init(config, clock), events)[i], events[i])
    {
      RunFromSteps(Init(config, clock), events, i);
    }
  }

  /** The packet that is between the queue and the stream totals, if any. */
  predicate Carrying(c: Control) {
    c.InHand? || c.CountedCumulative?
  }

  /** The packet is in its stream's total but not yet in the count of its verdict. */
  predicate Undecided(c: Control) {
    c.Counted? || c.IsFuture? || c.IsExpired? || c.IsGood? || c.CountedCumulativeGood?
  }

  function One(b: bool): nat {
    if b then 1 else 0
  }

  predicate HasPacket(c: Control) {
    Carrying(c) || Undecided(c) || c.CountedGood?
  }

  /** Beyond the first step a packet in hand has an identifier, and its verdict was decided by the clock. */
  ghost predicate ControlValid(c: Control) {
    && (HasPacket(c) && !c.InHand? ==> c.packet.id.Some?)
    && (c.IsGood? || c.CountedCumulativeGood? || c.CountedGood? ==>
          c.packet.samples.Size() > 0 && 0 <= c.latency <= MAXIMUM_LATENCY)
  }

  lemma ControlStep(s: State, e: Event)
    requires s.config.Valid() && ControlValid(s.control)
    ensures ControlValid(Next(s, e).control)
  {
    if e.Consume? && s.control.Counted? {
      GoodPackets(s.control.packet, s.clock);
    }
  }

  predicate SameCounters(a: Tables, b: Tables) {
    && b.total == a.total && b.received == a.received && b.future == a.future && b.expired == a.expired
    && b.cumulativeTotal == a.cumulativeTotal && b.cumulativeValid == a.cumulativeValid && b.interval == a.interval
  }

  lemma FlushLeavesCounters(t: Tables, now: int)
    ensures SameCounters(t, FlushAll(t, now))
  {
    hide PublishAll, FlushedGauges, Flushed;
  }

  lemma WindowLeavesCounters(t: Tables, k: string, o: Observation, now: int)
    ensures SameCounters(t, AddToWindow(t, k, o, now))
  {
    hide AddTo, NewWindow;
  }

  /** Which counters one step of the metrics thread touches. */
  lemma CountersTouched(s: State)
    ensures
      var a, b, c := s.tables, Consumed(s).tables, s.control;
      && b.total == (if c.CountedCumulative? then Bump(a.total, Key(c.packet)) else a.total)
      && b.received == (if c.CountedCumulativeGood? then Bump(a.received, Key(c.packet)) else a.received)
      && b.future == (if c.IsFuture? then Bump(a.future, Key(c.packet)) else a.future)
      && b.expired == (if c.IsExpired? then Bump(a.expired, Key(c.packet)) else a.expired)
      && b.cumulativeTotal == a.cumulativeTotal + One(c.InHand? && c.packet.id.Some?)
      && b.cumulativeValid == a.cumulativeValid + One(c.IsGood?)
      && b.interval == a.interval
  {
    hide FlushedStreams, FlushAll, AddToWindow, Classify, Bump, StreamOf, Key;
    if s.control.Flushing? {
      FlushLeavesCounters(s.tables, s.control.now);
    } else if s.control.CountedGood? {
      var p, latency := s.control.packet, s.control.latency;
      WindowLeavesCounters(s.tables, Key(p), Observation(p.samples, latency), s.clock);
    }
  }

  /** What one step of the metrics thread adds to the histories beside the counters. */
  lemma HistoryTouched(s: State)
    ensures
      var a, b, c := s.history, Consumed(s).history, s.control;
      && b.arrivals == a.arrivals && b.drops == a.drops
      && |b.consumed| == |a.consumed| + One(c.Top? && s.queue != [])
      && b.unnamed == a.unnamed + One(c.InHand? && c.packet.id.None?)
      && b.rejected == if c.Counted? && Classify(c.packet, s.clock).Rejected?
                       then Bump(a.rejected, Key(c.packet)) else a.rejected
  {
    hide FlushedStreams, FlushAll, AddToWindow, Classify, Bump, StreamOf, Key;
  }

  /** Where one step of the metrics thread leads, as far as the counters are concerned. */
  lemma ControlMoves(s: State)
    ensures
      var c, d := s.control, Consumed(s).control;
      && Carrying(d) == ((c.Top? && s.queue != []) || (c.InHand? && c.packet.id.Some?))
      && d.CountedCumulative? == (c.InHand? && c.packet.id.Some?)
      && d.CountedCumulativeGood? == c.IsGood?
      && Undecided(d)
         == (c.CountedCumulative? || c.IsGood? || (c.Counted? && !Classify(c.packet, s.clock).Rejected?))
      && (HasPacket(d) && !c.Top? ==> HasPacket(c) && d.packet == c.packet)
  {
    hide FlushedStreams, FlushAll, AddToWindow, Classify, Bump, StreamOf, Key;
  }
}
