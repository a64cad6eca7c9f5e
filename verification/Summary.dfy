/** The SEEDLink module's periodic report of how many packets came in since the last one. */
module Summary {
  import opened Common
  import opened Exporter
  import opened Metrics
  import opened Packets
  import opened Pipeline

  datatype Report = Report(total: int, valid: int)

  /** The two cumulative counters as the reporting thread read them, the total first. */
  datatype Reading = Reading(total: nat, valid: nat)

  /** What the last report was based on: nothing, before the first one. */
  function Before(readings: seq<Reading>): Reading {
    if readings == [] then Reading(0, 0) else Last(readings)
  }

  /** What is reported of a reading, given the one before it. */
  function Since(before: Reading, now: Reading): Report {
    Report(now.total - before.total, now.valid - before.valid)
  }

  /** The reports that a list of readings gives rise to. */
  function Reports(readings: seq<Reading>): (reports: seq<Report>)
    ensures |reports| == |readings|
  {
    if readings == [] then []
    else Reports(ButLast(readings)) + [Since(Before(ButLast(readings)), Last(readings))]
  }

  lemma {:induction false} ReportAt(readings: seq<Reading>, n: nat)
    requires n < |readings|
    ensures Reports(readings)[n] == Since(Before(readings[..n]), readings[n])
  {
    if n < |readings| - 1 {
      ReportAt(ButLast(readings), n);
      assert ButLast(readings)[..n] == readings[..n];
    }
  }

  class Reporter {
    /** In seconds, while the clock counts microseconds. */
    const interval: int
    var lastPrint: int
    var totalLastReport: int
    var validLastReport: int
    /** The readings that led to a report. */
    ghost var readings: seq<Reading>

    ghost predicate Valid()
      reads this
    {
      && totalLastReport == Before(readings).total
      && validLastReport == Before(readings).valid
    }

    constructor (interval: int, now: int)
      ensures Valid() && this.interval == interval && lastPrint == now && readings == []
    {
      this.interval := interval;
      lastPrint, totalLastReport, validLastReport := now, 0, 0;
      readings := [];
    }

    /** The counters are read only when a report is due. */
    method PrintSummary(now: int, reading: Reading) returns (report: Option<Report>)
      requires Valid()
      modifies this
      ensures Valid()
      ensures report.Some? <==> interval > 0 && now - old(lastPrint) > interval * 1000000
      ensures report.Some? ==>
        && lastPrint == now && readings == old(readings) + [reading]
        && Reports(readings) == Reports(old(readings)) + [report.value]
      ensures report.None? ==> lastPrint == old(lastPrint) && readings == old(readings)
    {
      if interval <= 0 {
        return None;
      }
      if now > lastPrint + interval * MICROSECONDS_PER_SECOND {
        lastPrint := now;
        report := Some(Report(reading.total - totalLastReport, reading.valid - validLastReport));
        totalLastReport := reading.total;
        validLastReport := reading.valid;
        assert ButLast(readings + [reading]) == readings;
        readings := readings + [reading];
      } else {
        report := None;
      }
    }
  }

  function ReportedTotal(reports: seq<Report>): int {
    if reports == [] then 0 else ReportedTotal(ButLast(reports)) + Last(reports).total
  }

  function ReportedValid(reports: seq<Report>): int {
    if reports == [] then 0 else ReportedValid(ButLast(reports)) + Last(reports).valid
  }

  /** The differences add up: all reports together say exactly what the last reading said. */
  lemma {:induction false} ReportsTelescope(readings: seq<Reading>)
    requires readings != []
    ensures ReportedTotal(Reports(readings)) == Last(readings).total
    ensures ReportedValid(Reports(readings)) == Last(readings).valid
  {
    var rest, reports := ButLast(readings), Reports(readings);
    assert ButLast(reports) == Reports(rest);
    if rest != [] {
      ReportsTelescope(rest);
    }
  }

  /** A reading taken during a run: the total at one moment and the valid count at the same or a later one. */
  ghost predicate ReadDuring(r: Reading, run: seq<State>, i: nat, j: nat) {
    && i <= j < |run|
    && r.total == run[i].tables.cumulativeTotal
    && r.valid == run[j].tables.cumulativeValid
  }

  /** When a reading's two counters were read. */
  datatype Moments = Moments(total: nat, valid: nat)

  /** The valid packets that were counted after a reading had read the total and before it read the valid count. */
  function Between(run: seq<State>, m: Moments): int
    requires m.total < |run| && m.valid < |run|
  {
    run[m.valid].tables.cumulativeValid - run[m.total].tables.cumulativeValid
  }

  /**
   * The readings themselves: the valid count leads the total by what was counted as valid between the two reads,
   * less the packets not valid and the one in flight, so by no more than the packets that came in between.
   */
  lemma ReadingSkew(
      run: seq<State>, events: seq<Event>, config: Config, clock: int, r: Reading, i: nat, j: nat)
    requires IsRun(run, events, config, clock) && ReadDuring(r, run, i, j)
    ensures r.valid - r.total
      == Between(run, Moments(i, j)) - NotValid(run[i]) - One(InFlight(run[i].control))
    ensures r.valid <= r.total + (run[j].tables.cumulativeTotal - run[i].tables.cumulativeTotal)
  {
    CumulativeOnRuns(run, events, config, clock, i);
    CumulativeOnRuns(run, events, config, clock, j);
    hide NotValid, InFlight, IsRun;
  }

  /** Readings taken one after the other during a run. */
  ghost predicate Taken(readings: seq<Reading>, at: seq<Moments>, run: seq<State>) {
    && |at| == |readings|
    && (forall n :: 0 <= n < |at| ==> ReadDuring(readings[n], run, at[n].total, at[n].valid))
    && (forall m, n :: 0 <= m < n < |at| ==> at[m].valid <= at[n].total)
  }

  /** The two counters of each reading were read at one instant. */
  ghost predicate AtInstants(at: seq<Moments>) {
    forall n :: 0 <= n < |at| ==> at[n].total == at[n].valid
  }

  /** When the reading before the n-th was taken. Before the first one both counters count from the start. */
  function PreviousMoments(at: seq<Moments>, n: nat): Moments
    requires n < |at|
  {
    if n == 0 then Moments(0, 0) else at[n - 1]
  }

  /**
   * By how much a report's valid packets exceed its packets: what was counted as valid during this reading and
   * the packet that was in flight at the one before it, less what was counted during that one, the packet in
   * flight now, and the packets in between that turned out not valid.
   */
  lemma {:induction false} ReportExcess(
      run: seq<State>, events: seq<Event>, config: Config, clock: int,
      readings: seq<Reading>, at: seq<Moments>, n: nat)
    requires IsRun(run, events, config, clock) && Taken(readings, at, run) && n < |readings|
    ensures
      var before, now, report := PreviousMoments(at, n), at[n], Reports(readings)[n];
      var s, t := run[before.total], run[now.total];
      && Between(run, before) >= 0 && Between(run, now) >= 0 && NotValid(t) >= NotValid(s)
      && report.valid - report.total
           == Between(run, now) + One(InFlight(s.control))
              - Between(run, before) - One(InFlight(t.control)) - (NotValid(t) - NotValid(s))
  {
    hide Reports, Between, NotValid, InFlight, Next;
    var before, now := PreviousMoments(at, n), at[n];
    ReportAt(readings, n);
    PreviousReading(run, events, config, clock, readings, at, n);
    hide Init, Before;
    CumulativeOnRuns(run, events, config, clock, before.total);
    CumulativeOnRuns(run, events, config, clock, now.total);
    CountersGrowOnRuns(run, events, config, clock, before.total, before.valid, "");
    CountersGrowOnRuns(run, events, config, clock, now.total, now.valid, "");
    NotValidGrows(run, events, config, clock, before.total, now.total);
    BetweenIs(run, before);
    BetweenIs(run, now);
  }

  lemma PreviousReading(
      run: seq<State>, events: seq<Event>, config: Config, clock: int,
      readings: seq<Reading>, at: seq<Moments>, n: nat)
    requires IsRun(run, events, config, clock) && Taken(readings, at, run) && n < |readings|
    ensures
      var before := PreviousMoments(at, n);
      ReadDuring(Before(readings[..n]), run, before.total, before.valid) && before.valid <= at[n].total
  {
    hide Next;
    if n > 0 {
      assert ReadDuring(readings[n - 1], run, at[n - 1].total, at[n - 1].valid);
    }
  }

  lemma BetweenIs(run: seq<State>, m: Moments)
    requires m.total < |run| && m.valid < |run|
    ensures Between(run, m) == run[m.valid].tables.cumulativeValid - run[m.total].tables.cumulativeValid
  {
  }

  /** When exactly a report does not show more valid packets than packets. */
  lemma {:induction false} ReportIsConsistent(
      run: seq<State>, events: seq<Event>, config: Config, clock: int,
      readings: seq<Reading>, at: seq<Moments>, n: nat)
    requires IsRun(run, events, config, clock) && Taken(readings, at, run) && n < |readings|
    ensures
      var before, now, report := PreviousMoments(at, n), at[n], Reports(readings)[n];
      var s, t := run[before.total], run[now.total];
      report.valid <= report.total <==>
        Between(run, now) + One(InFlight(s.control))
          <= Between(run, before) + One(InFlight(t.control)) + (NotValid(t) - NotValid(s))
  {
    ReportExcess(run, events, config, clock, readings, at, n);
    hide Reports, Between, NotValid, InFlight, IsRun, Taken;
  }

  /**
   * With both counters read at one instant a report shows at most one valid packet too many, and does so exactly
   * when a packet was in flight at the reading before, none is now, and none in between turned out not valid.
   */
  lemma {:induction false} InstantReports(
      run: seq<State>, events: seq<Event>, config: Config, clock: int,
      readings: seq<Reading>, at: seq<Moments>, n: nat)
    requires IsRun(run, events, config, clock) && Taken(readings, at, run) && n < |readings|
    requires AtInstants(at)
    ensures Reports(readings)[n].valid <= Reports(readings)[n].total + 1
    ensures
      var s, t := run[PreviousMoments(at, n).total], run[at[n].total];
      Reports(readings)[n].valid == Reports(readings)[n].total + 1 <==>
        InFlight(s.control) && !InFlight(t.control) && NotValid(t) == NotValid(s)
  {
    ReportExcess(run, events, config, clock, readings, at, n);
    BetweenIs(run, PreviousMoments(at, n));
    BetweenIs(run, at[n]);
    hide Reports, Between, NotValid, InFlight, IsRun;
  }

  /** The first report can show one valid packet among none received, by reading the total before the valid count. */
  lemma ReportCanShowMoreValidThanReceived(config: Config, clock: int, p: BuiltPacket)
    requires config.Valid() && p.id.Some? && Classify(p, clock).Good?
    ensures exists run: seq<State>, events: seq<Event>, at: seq<Moments> ::
      IsRun(run, events, config, clock) && Taken([Reading(0, 1)], at, run)
    ensures Reports([Reading(0, 1)]) == [Report(0, 1)]
  {
    var run := RunFrom(Init(config, clock), OnePacket(p));
    RunFromIsRun(config, clock, OnePacket(p));
    OnePacketCounted(config, clock, p);
    hide RunFrom, OnePacket, Classify, IsRun;
    assert Taken([Reading(0, 1)], [Moments(0, 7)], run);
    assert ButLast([Reading(0, 1)]) == [];
    hide Taken;
    assert IsRun(run, OnePacket(p), config, clock);
  }

  lemma TwoReports(first: Reading, second: Reading)
    ensures Reports([first, second]) == [Since(Reading(0, 0), first), Since(first, second)]
  {
    hide Since;
    ReportAt([first, second], 0);
    ReportAt([first, second], 1);
    hide Reports;
  }

  function ReadAt(s: State): Reading {
    Reading(s.tables.cumulativeTotal, s.tables.cumulativeValid)
  }

  lemma TwoInstants(run: seq<State>, i: nat, j: nat)
    requires i <= j < |run|
    ensures Taken([ReadAt(run[i]), ReadAt(run[j])], [Moments(i, i), Moments(j, j)], run)
    ensures AtInstants([Moments(i, i), Moments(j, j)])
  {
  }

  /** So can the second report, even with both counters read at one instant. */
  lemma InstantReportCanShowMoreValidThanReceived(config: Config, clock: int, p: BuiltPacket)
      returns (run: seq<State>, events: seq<Event>, readings: seq<Reading>, at: seq<Moments>)
    requires config.Valid() && p.id.Some? && Classify(p, clock).Good?
    ensures IsRun(run, events, config, clock) && Taken(readings, at, run) && AtInstants(at)
    ensures Reports(readings) == [Report(1, 0), Report(0, 1)]
  {
    run, events := RunFrom(Init(config, clock), OnePacket(p)), OnePacket(p);
    RunFromIsRun(config, clock, OnePacket(p));
    OnePacketCounted(config, clock, p);
    readings, at := [ReadAt(run[3]), ReadAt(run[6])], [Moments(3, 3), Moments(6, 6)];
    TwoInstants(run, 3, 6);
    TwoReports(ReadAt(run[3]), ReadAt(run[6]));
    hide RunFrom, IsRun, OnePacket, Init, Classify, Taken, Reports;
  }
}
