/** The running sums of one stream's window, and what they are when the window is closed. */
module Windows {
  import opened Common
  import opened Packets
  import opened Samples
  import opened Statistics

  /** The three published values. The deviation is kept as its square, which fixes it because it is never negative. */
  datatype Gauges = Gauges(latency: real, counts: real, deviationSquared: real)

  datatype Accumulators = Accumulators(
    sum: real, sumSquared: real, samplesCount: nat, packetsCount: nat, sumLatency: int)
  {
    predicate Consistent() {
      samplesCount > 0 ==> packetsCount > 0
    }
  }

  type Running = a: Accumulators | a.Consistent() witness NOTHING

  const NOTHING := Accumulators(0.0, 0.0, 0, 0, 0)

  datatype Window = Window(interval: nat, lastUpdate: int, running: Running, gauges: Gauges)

  /** One valid packet as the window sees it. */
  datatype Observation = Observation(samples: Samples, latency: int)

  function NewWindow(interval: nat, now: int): Window {
    Window(interval, now, NOTHING, Gauges(interval as real, 0.0, 0.0))
  }

  function Add(a: Running, o: Observation): Running {
    if o.samples.Size() < 1 then a
    else
      var s := ComputeSumAndSumSquared(o.samples);
      Accumulators(a.sum + s.sum, a.sumSquared + s.sumSquared, a.samplesCount + o.samples.Size(),
                   a.packetsCount + 1, a.sumLatency + o.latency)
  }

  function NonNegativePart(x: real): real {
    if x < 0.0 then 0.0 else x
  }

  function BesselCorrection(n: nat): real
    requires n > 0
  {
    if n > 1 then n as real / (n - 1) as real else 1.0
  }

  /** Division is named so that proofs can hide it. */
  function Per(a: real, n: nat): real
    requires n > 0
  {
    a / n as real
  }

  /** The one-pass formulas. */
  function CloseWith(a: Running, interval: nat): Gauges {
    if a.samplesCount == 0 then Gauges(interval as real, 0.0, 0.0)
    else
      var n := a.samplesCount;
      var average := Per(a.sum, n);
      var variance := Per(a.sumSquared, n) - Times(average, average);
      var bessel := BesselCorrection(n);
      Gauges(Per(a.sumLatency as real / 1000000.0, a.packetsCount), average,
             Times(Times(bessel, bessel), NonNegativePart(variance)))
  }

  function IntervalMicroseconds(interval: nat): nat {
    interval * MICROSECONDS_PER_SECOND
  }

  predicate Due(w: Window, now: int) {
    now >= w.lastUpdate + IntervalMicroseconds(w.interval)
  }

  /** The interval counts seconds, the clock microseconds. */
  lemma DueAfterInterval(w: Window, now: int)
    ensures Due(w, now) <==> now - w.lastUpdate >= w.interval * 1000000
  {
  }

  function AddTo(w: Window, o: Observation): Window {
    w.(running := Add(w.running, o))
  }

  function Flushed(w: Window, now: int): Window {
    if Due(w, now) then Window(w.interval, now, NOTHING, CloseWith(w.running, w.interval)) else w
  }

  class WindowedMetrics {
    var updateInterval: nat
    var lastUpdate: int
    var sumLatency: int
    var windowedAverageLatency: real
    var windowedAverageCounts: real
    var windowedStdCountsSquared: real
    var sum: real
    var sumSquared: real
    var samplesCount: nat
    var packetsCount: nat

    ghost predicate Valid()
      reads this
    {
      samplesCount > 0 ==> packetsCount > 0
    }

    ghost function Value(): Window
      reads this
      requires Valid()
    {
      Window(updateInterval, lastUpdate, Accumulators(sum, sumSquared, samplesCount, packetsCount, sumLatency),
             Gauges(windowedAverageLatency, windowedAverageCounts, windowedStdCountsSquared))
    }

    constructor (interval: nat, now: int)
      ensures Valid() && Value() == NewWindow(interval, now)
    {
      updateInterval, lastUpdate := interval, now;
      sumLatency, sum, sumSquared, samplesCount, packetsCount := 0, 0.0, 0.0, 0, 0;
      windowedAverageLatency, windowedAverageCounts, windowedStdCountsSquared := interval as real, 0.0, 0.0;
    }

    method Update(samples: Samples, packetLatency: int)
      requires Valid()
      modifies this
      ensures Valid() && Value() == AddTo(old(Value()), Observation(samples, packetLatency))
    {
      var nSamples := samples.Size();
      if nSamples < 1 {
        return;
      }
      var s := ComputeSumAndSumSquared(samples);
      sum := sum + s.sum;
      sumSquared := sumSquared + s.sumSquared;
      samplesCount := samplesCount + nSamples;
      packetsCount := packetsCount + 1;
      sumLatency := sumLatency + packetLatency;
    }

    method UpdateAndReset(now: int) returns (wasUpdated: bool)
      requires Valid()
      modifies this
      ensures Valid() && Value() == Flushed(old(Value()), now)
      ensures wasUpdated <==> Due(old(Value()), now)
      ensures wasUpdated <==> now - old(lastUpdate) >= updateInterval * 1000000
      ensures updateInterval == old(updateInterval) && lastUpdate == if wasUpdated then now else old(lastUpdate)
    {
      hide Per, Times, NonNegativePart;
      wasUpdated := false;
      if now >= lastUpdate + IntervalMicroseconds(updateInterval) {
        lastUpdate := now;
        var averageLatency, averageCounts, stdCountsSquared := updateInterval as real, 0.0, 0.0;
        if samplesCount > 0 {
          var besselCorrection := 1.0;
          if samplesCount > 1 {
            besselCorrection := samplesCount as real / (samplesCount - 1) as real;
          }
          averageLatency := Per(sumLatency as real / 1000000.0, packetsCount);
          averageCounts := Per(sum, samplesCount);
          var varianceOfCounts := Per(sumSquared, samplesCount) - Times(averageCounts, averageCounts);
          stdCountsSquared := Times(Times(besselCorrection, besselCorrection), NonNegativePart(varianceOfCounts));
        }
        sumLatency, sum, sumSquared, samplesCount, packetsCount := 0, 0.0, 0.0, 0, 0;
        windowedAverageLatency := averageLatency;
        windowedAverageCounts := averageCounts;
        windowedStdCountsSquared := stdCountsSquared;
        wasUpdated := true;
      }
    }
  }

  // ---- the accumulators against the whole list of packets ----

  function Fold(os: seq<Observation>): Running {
    if os == [] then NOTHING else Add(Fold(ButLast(os)), Last(os))
  }

  /** All samples of a list of packets, in order. */
  function AllValues(os: seq<Observation>): seq<real> {
    if os == [] then [] else AllValues(ButLast(os)) + Last(os).samples.Values()
  }

  function TotalLatency(os: seq<Observation>): int {
    if os == [] then 0 else TotalLatency(ButLast(os)) + Last(os).latency
  }

  ghost predicate AllNonEmpty(os: seq<Observation>) {
    forall i :: 0 <= i < |os| ==> os[i].samples.Size() > 0
  }

  ghost predicate AllSquaresFit(os: seq<Observation>) {
    forall i :: 0 <= i < |os| ==> SquaresFit(os[i].samples)
  }

  /** The two-pass definition of the gauges over a list of packets. */
  function TwoPassGauges(os: seq<Observation>, interval: nat): Gauges {
    var xs := AllValues(os);
    if xs == [] || os == [] then Gauges(interval as real, 0.0, 0.0)
    else
      var bessel := BesselCorrection(|xs|);
      Gauges(Per(TotalLatency(os) as real / 1000000.0, |os|), Mean(xs),
             Times(Times(bessel, bessel), PopulationVariance(xs)))
  }

  /** The running counts and sums of a list of packets are those of all its samples. */
  lemma {:induction false} FoldIsSums(os: seq<Observation>)
    requires AllNonEmpty(os)
    ensures
      var a, xs := Fold(os), AllValues(os);
      && a.packetsCount == |os| && a.samplesCount == |xs| && a.sumLatency == TotalLatency(os)
      && a.sum == Sum(xs)
      && |os| <= |xs|
  {
    if os != [] {
      hide Sum, SumOfSquares, ComputeSumAndSumSquared, SquaresFit;
      var rest, o := ButLast(os), Last(os);
      assert forall i :: 0 <= i < |rest| ==> rest[i] == os[i];
      FoldIsSums(rest);
      SumsExact(o.samples);
      SumAppend(AllValues(rest), o.samples.Values());
    } else {
      NothingToSum();
    }
  }

  /** The running square sum is never too large, and is right exactly when every square fits its width. */
  lemma {:induction false} FoldSquares(os: seq<Observation>)
    requires AllNonEmpty(os)
    ensures Fold(os).sumSquared <= SumOfSquares(AllValues(os))
    ensures Fold(os).sumSquared == SumOfSquares(AllValues(os)) <==> AllSquaresFit(os)
  {
    if os != [] {
      hide Sum, SumOfSquares, ComputeSumAndSumSquared, SquaresFit;
      var rest, o := ButLast(os), Last(os);
      assert forall i :: 0 <= i < |rest| ==> rest[i] == os[i];
      FoldSquares(rest);
      SumsExact(o.samples);
      SquaresAppend(AllValues(rest), o.samples.Values());
      assert AllSquaresFit(os) <==> AllSquaresFit(rest) && SquaresFit(o.samples);
    } else {
      NothingToSum();
    }
  }

  lemma BesselSquaredPositive(n: nat)
    requires n > 0
    ensures Times(BesselCorrection(n), BesselCorrection(n)) >= 1.0
  {
    if n > 1 {
      QuotientBetween(n as real, (n - 1) as real, 1.0, n as real);
      OrderTimes(1.0, BesselCorrection(n), BesselCorrection(n));
    }
  }

  /** The one-pass variance over a nonempty list: at most the two-pass one, and equal exactly when all squares fit. */
  lemma OnePassVariance(os: seq<Observation>)
    requires AllNonEmpty(os) && os != []
    ensures Fold(os).samplesCount > 0 && AllValues(os) != []
    ensures
      var a, xs := Fold(os), AllValues(os);
      && Per(a.sum, a.samplesCount) == Mean(xs)
      && var v := Per(a.sumSquared, a.samplesCount) - Times(Mean(xs), Mean(xs));
         v <= PopulationVariance(xs) && (v == PopulationVariance(xs) <==> AllSquaresFit(os))
  {
    hide Sum, SumOfSquares, PopulationVariance, AllSquaresFit, Fold, AllValues;
    var a, xs := Fold(os), AllValues(os);
    FoldIsSums(os);
    FoldSquares(os);
    MeanSquareGap(xs);
    PerMonotone(a.sumSquared, SumOfSquares(xs), |xs|);
  }

  lemma PerMonotone(a: real, b: real, n: nat)
    requires n > 0 && a <= b
    ensures Per(a, n) <= Per(b, n)
    ensures Per(a, n) == Per(b, n) <==> a == b
  {
    Quotient(b - a, n as real);
    assert (b - a) / n as real == b / n as real - a / n as real;
  }

  lemma MeanSquareGap(xs: seq<real>)
    requires xs != []
    ensures Per(SumOfSquares(xs), |xs|) - Times(Mean(xs), Mean(xs)) == PopulationVariance(xs)
    ensures Mean(xs) == Per(Sum(xs), |xs|)
  {
    hide Sum, SumOfSquares, PopulationVariance;
    OnePassIsTwoPass(xs);
  }

  /** An empty window publishes the interval and two zeros. */
  lemma EmptyWindowGauges(interval: nat)
    ensures CloseWith(Fold([]), interval) == Gauges(interval as real, 0.0, 0.0) == TwoPassGauges([], interval)
  {
  }

  /**
   * For every window the latency and the mean are the two-pass values. The deviation is exactly when all
   * squares fit their integer width, or when the samples are constant, where the clamp at zero hides the loss.
   */
  lemma GaugesAgainstTwoPass(os: seq<Observation>, interval: nat)
    requires AllNonEmpty(os) && os != []
    ensures
      var g, spec := CloseWith(Fold(os), interval), TwoPassGauges(os, interval);
      && AllValues(os) != []
      && g.latency == spec.latency && g.counts == spec.counts
      && 0.0 <= g.deviationSquared <= spec.deviationSquared
      && (g.deviationSquared == spec.deviationSquared <==>
            AllSquaresFit(os) || PopulationVariance(AllValues(os)) == 0.0)
  {
    hide Sum, SumOfSquares, PopulationVariance, Mean, Times, Per, BesselCorrection, AllSquaresFit, Fold, AllValues;
    var a, xs := Fold(os), AllValues(os);
    OnePassVariance(os);
    FoldIsSums(os);
    VarianceNonNegative(xs);
    BesselSquaredPositive(|xs|);
    var b := BesselCorrection(|xs|);
    var v := Per(a.sumSquared, a.samplesCount) - Times(Mean(xs), Mean(xs));
    ScaledOrder(Times(b, b), NonNegativePart(v), PopulationVariance(xs));
  }

  lemma ScaledOrder(b: real, v: real, w: real)
    requires b > 0.0 && 0.0 <= v <= w
    ensures 0.0 <= Times(b, v) <= Times(b, w)
    ensures Times(b, v) == Times(b, w) <==> v == w
  {
    TimesSigns(b, v);
    TimesSigns(b, w - v);
    assert b * (w - v) == b * w - b * v;
  }

  /** Bessel's factor scales the deviation: its square is n/(n-1) times the unbiased sample variance. */
  lemma DeviationAgainstSampleVariance(os: seq<Observation>, interval: nat)
    requires AllNonEmpty(os) && AllSquaresFit(os) && |AllValues(os)| > 1
    ensures
      var n := |AllValues(os)|;
      && CloseWith(Fold(os), interval).deviationSquared == BesselCorrection(n) * SampleVariance(AllValues(os))
      && BesselCorrection(n) == n as real / (n - 1) as real
  {
    hide Sum, SumOfSquares, Scatter, Times, AllSquaresFit, Fold, AllValues, Mean;
    assert os != [] by {
      if os == [] {
        FoldIsSums(os);
      }
    }
    GaugesAgainstTwoPass(os, interval);
    BesselAlgebra(Scatter(AllValues(os), Mean(AllValues(os))), |AllValues(os)|);
  }

  lemma BesselAlgebra(scatter: real, n: nat)
    requires n > 1
    ensures Times(Times(BesselCorrection(n), BesselCorrection(n)), scatter / n as real)
         == BesselCorrection(n) * (scatter / (n - 1) as real)
  {
    var u, w := scatter / n as real, scatter / (n - 1) as real;
    assert u * n as real == scatter == w * (n - 1) as real;
  }

  // ---- splitting and order ----

  /** One sample with the width its square is formed in. */
  datatype Sample = Narrow(n32: Int32) | Wide(n64: Int64) | Floating(r: real)

  function ValueOf(x: Sample): real {
    match x
    case Narrow(v) => v as real
    case Wide(v) => v as real
    case Floating(v) => v
  }

  /** What the sample adds to the square sum, after any overflow. */
  function SquareTerm(x: Sample): real {
    match x
    case Narrow(v) => Wrap(v * v, HALF_32) as real
    case Wide(v) => Wrap(v * v, HALF_64) as real
    case Floating(v) => Times(v, v)
  }

  function Mapped(xs: seq<Sample>, f: Sample -> real): seq<real> {
    seq(|xs|, i requires 0 <= i < |xs| => f(xs[i]))
  }

  function SamplesIn(data: Samples): seq<Sample> {
    match data
    case Ints32(xs) => seq(|xs|, i requires 0 <= i < |xs| => Narrow(xs[i]))
    case Ints64(xs) => seq(|xs|, i requires 0 <= i < |xs| => Wide(xs[i]))
    case Floats(xs) => seq(|xs|, i requires 0 <= i < |xs| => Floating(xs[i]))
    case Doubles(xs) => seq(|xs|, i requires 0 <= i < |xs| => Floating(xs[i]))
    case NoSamples => []
  }

  function AllSamples(os: seq<Observation>): seq<Sample> {
    if os == [] then [] else AllSamples(ButLast(os)) + SamplesIn(Last(os).samples)
  }

  lemma MappedAppend(xs: seq<Sample>, ys: seq<Sample>, f: Sample -> real)
    ensures Mapped(xs + ys, f) == Mapped(xs, f) + Mapped(ys, f)
    ensures Sum(Mapped(xs + ys, f)) == Sum(Mapped(xs, f)) + Sum(Mapped(ys, f))
  {
    assert Mapped(xs + ys, f) == Mapped(xs, f) + Mapped(ys, f);
    SumAppend(Mapped(xs, f), Mapped(ys, f));
  }

  /** A sum over samples depends only on how often each sample occurs. */
  lemma {:induction false} MappedIgnoresOrder(xs: seq<Sample>, ys: seq<Sample>, f: Sample -> real)
    requires multiset(xs) == multiset(ys)
    ensures |xs| == |ys| && Sum(Mapped(xs, f)) == Sum(Mapped(ys, f))
    decreases |xs|
  {
    assert |multiset(xs)| == |xs| && |multiset(ys)| == |ys|;
    if xs == [] {
      assert ys == [];
    } else {
      hide Sum, Mapped;
      var rest, x := ButLast(xs), Last(xs);
      assert xs == rest + [x];
      assert x in multiset(ys);
      var j :| 0 <= j < |ys| && ys[j] == x;
      var a, b := ys[..j], ys[j + 1..];
      TakenOut(ys, j);
      assert multiset(rest) == multiset(xs) - multiset{x};
      MappedIgnoresOrder(rest, a + b, f);
      MappedAppend(rest, [x], f);
      MappedAppend(a + [x], b, f);
      MappedAppend(a, [x], f);
      MappedAppend(a, b, f);
    }
  }

  lemma TakenOut<T>(s: seq<T>, j: nat)
    requires j < |s|
    ensures s == s[..j] + [s[j]] + s[j + 1..]
    ensures multiset(s[..j] + s[j + 1..]) == multiset(s) - multiset{s[j]}
  {
    assert s == s[..j] + [s[j]] + s[j + 1..];
  }

  lemma SumsOfSamples(data: Samples)
    ensures |SamplesIn(data)| == data.Size()
    ensures ComputeSumAndSumSquared(data)
         == Sums(Sum(Mapped(SamplesIn(data), ValueOf)), Sum(Mapped(SamplesIn(data), SquareTerm)))
  {
    hide Wrap, Times;
    var xs := SamplesIn(data);
    match data
    case Ints32(v) =>
      assert Mapped(xs, ValueOf) == AsReals(v) && Mapped(xs, SquareTerm) == IntegerSquares(v, HALF_32);
    case Ints64(v) =>
      assert Mapped(xs, ValueOf) == AsReals(v) && Mapped(xs, SquareTerm) == IntegerSquares(v, HALF_64);
    case Floats(v) =>
      assert Mapped(xs, ValueOf) == v && Mapped(xs, SquareTerm) == Squares(v);
    case Doubles(v) =>
      assert Mapped(xs, ValueOf) == v && Mapped(xs, SquareTerm) == Squares(v);
    case NoSamples =>
      assert Mapped(xs, ValueOf) == [] && Mapped(xs, SquareTerm) == [];
  }

  /** The running sums as sums over all samples, overflow included. */
  lemma {:induction false} FoldOfSamples(os: seq<Observation>)
    requires AllNonEmpty(os)
    ensures
      var a, xs := Fold(os), AllSamples(os);
      && a.samplesCount == |xs|
      && a.sum == Sum(Mapped(xs, ValueOf)) && a.sumSquared == Sum(Mapped(xs, SquareTerm))
  {
    if os == [] {
      assert Mapped([], ValueOf) == [] && Mapped([], SquareTerm) == [];
    } else {
      hide Sum, Mapped, ComputeSumAndSumSquared, SamplesIn;
      var rest, o := ButLast(os), Last(os);
      assert forall i :: 0 <= i < |rest| ==> rest[i] == os[i];
      FoldOfSamples(rest);
      SumsOfSamples(o.samples);
      MappedAppend(AllSamples(rest), SamplesIn(o.samples), ValueOf);
      MappedAppend(AllSamples(rest), SamplesIn(o.samples), SquareTerm);
    }
  }

  /** The published mean depends only on how often each value occurs, not on packets, order, widths or overflow. */
  lemma MeanIgnoresSplitting(os: seq<Observation>, ps: seq<Observation>, interval: nat)
    requires AllNonEmpty(os) && AllNonEmpty(ps)
    requires multiset(AllValues(os)) == multiset(AllValues(ps))
    ensures CloseWith(Fold(os), interval).counts == CloseWith(Fold(ps), interval).counts
  {
    hide Sum, SumOfSquares, Times, Per, BesselCorrection, Fold, AllValues, NonNegativePart;
    FoldIsSums(os);
    FoldIsSums(ps);
    SumsIgnoreOrder(AllValues(os), AllValues(ps));
  }

  /**
   * The published deviation depends only on how often each sample of each width occurs, overflow included;
   * where no square overflows the widths do not matter either.
   */
  lemma DeviationIgnoresSplitting(os: seq<Observation>, ps: seq<Observation>, interval: nat)
    requires AllNonEmpty(os) && AllNonEmpty(ps)
    requires
      || multiset(AllSamples(os)) == multiset(AllSamples(ps))
      || (multiset(AllValues(os)) == multiset(AllValues(ps)) && AllSquaresFit(os) && AllSquaresFit(ps))
    ensures CloseWith(Fold(os), interval).counts == CloseWith(Fold(ps), interval).counts
    ensures CloseWith(Fold(os), interval).deviationSquared == CloseWith(Fold(ps), interval).deviationSquared
  {
    hide Sum, SumOfSquares, Times, Per, BesselCorrection, AllSquaresFit, Fold, AllValues, NonNegativePart, AllSamples,
      Mapped;
    if multiset(AllSamples(os)) == multiset(AllSamples(ps)) {
      FoldOfSamples(os);
      FoldOfSamples(ps);
      MappedIgnoresOrder(AllSamples(os), AllSamples(ps), ValueOf);
      MappedIgnoresOrder(AllSamples(os), AllSamples(ps), SquareTerm);
    } else {
      FoldIsSums(os);
      FoldIsSums(ps);
      FoldSquares(os);
      FoldSquares(ps);
      SumsIgnoreOrder(AllValues(os), AllValues(ps));
    }
  }

  /**
   * Gauge bounds for samples in [lo, hi]: the squared deviation is at most Bessel's factor squared times
   * (hi - mean)(mean - lo), so times a quarter of the squared range. Overflowing squares cannot break them.
   */
  lemma GaugeBounds(os: seq<Observation>, interval: nat, lo: real, hi: real)
    requires AllNonEmpty(os) && os != [] && Within(AllValues(os), lo, hi)
    ensures
      var g := CloseWith(Fold(os), interval);
      var n := |AllValues(os)|;
      && n > 0
      && lo <= g.counts <= hi
      && var factor := Times(BesselCorrection(n), BesselCorrection(n));
         && 0.0 <= g.deviationSquared <= Times(factor, Times(hi - g.counts, g.counts - lo))
         && Times(factor, Times(hi - g.counts, g.counts - lo)) <= Times(factor, Times(hi - lo, hi - lo) / 4.0)
  {
    var xs := AllValues(os);
    GaugesAgainstTwoPass(os, interval);
    MeanBetween(xs, lo, hi);
    VarianceBetween(xs, lo, hi);
    BesselSquaredPositive(|xs|);
    hide Sum, SumOfSquares, PopulationVariance, Mean, Times, Per, BesselCorrection, AllSquaresFit, Fold, AllValues,
      Within, CloseWith;
    var b, m := BesselCorrection(|xs|), Mean(xs);
    ScaledOrder(Times(b, b), PopulationVariance(xs), Times(hi - m, m - lo));
    ScaledOrder(Times(b, b), Times(hi - m, m - lo), Times(hi - lo, hi - lo) / 4.0);
  }

  // ---- latency ----

  const MAXIMUM_LATENCY_DAYS := 180
  const MAXIMUM_LATENCY := MAXIMUM_LATENCY_DAYS * 86400 * MICROSECONDS_PER_SECOND
  const LARGEST_INT64 := HALF_64 - 1
  /** How many packets one window can take before the microsecond sum may leave 64 bits. */
  const SAFE_PACKETS := 593066

  ghost predicate LatenciesInRange(os: seq<Observation>) {
    forall i :: 0 <= i < |os| ==> 0 <= os[i].latency <= MAXIMUM_LATENCY
  }

  lemma {:induction false} TotalLatencyBounds(os: seq<Observation>)
    requires LatenciesInRange(os)
    ensures 0 <= TotalLatency(os) <= |os| * MAXIMUM_LATENCY
  {
    if os != [] {
      var rest := ButLast(os);
      assert forall i :: 0 <= i < |rest| ==> rest[i] == os[i];
      TotalLatencyBounds(rest);
      assert |os| == |rest| + 1;
    }
  }

  /** The published latency is the mean of the packets' latencies, in seconds. */
  lemma PublishedLatencyIsMean(os: seq<Observation>, interval: nat)
    requires AllNonEmpty(os) && os != []
    ensures
      var microseconds := seq(|os|, i requires 0 <= i < |os| => os[i].latency as real);
      Times(CloseWith(Fold(os), interval).latency, |os| as real) * 1000000.0 == Sum(microseconds)
  {
    TotalIsSum(os);
    hide Fold, AllValues, Sum, BesselCorrection, Times, NonNegativePart, Per, CloseWith, TotalLatency;
    FoldIsSums(os);
    ClosedLatency(Fold(os), interval);
    PerTimes(TotalLatency(os) as real / 1000000.0, |os|);
  }

  lemma {:induction false} TotalIsSum(os: seq<Observation>)
    ensures TotalLatency(os) as real == Sum(seq(|os|, i requires 0 <= i < |os| => os[i].latency as real))
  {
    var xs := seq(|os|, i requires 0 <= i < |os| => os[i].latency as real);
    if os != [] {
      var rest := ButLast(os);
      TotalIsSum(rest);
      assert ButLast(xs) == seq(|rest|, i requires 0 <= i < |rest| => rest[i].latency as real);
    }
  }

  lemma ClosedLatency(a: Running, interval: nat)
    requires a.samplesCount > 0
    ensures CloseWith(a, interval).latency == Per(a.sumLatency as real / 1000000.0, a.packetsCount)
  {
    hide Per, BesselCorrection, Times, NonNegativePart;
  }

  lemma PerTimes(a: real, n: nat)
    requires n > 0
    ensures Times(Per(a, n), n as real) == a
  {
    Quotient(a, n as real);
  }

  /** The published latency of a nonempty window lies between zero and 180 days, in seconds. */
  lemma PublishedLatencyInRange(os: seq<Observation>, interval: nat)
    requires AllNonEmpty(os) && os != [] && LatenciesInRange(os)
    ensures 0.0 <= CloseWith(Fold(os), interval).latency <= 15552000.0
  {
    hide Fold, AllValues, TotalLatency, Sum;
    FoldIsSums(os);
    TotalLatencyBounds(os);
    var t, n := TotalLatency(os) as real / 1000000.0, |os| as real;
    assert t <= Times(15552000.0, n);
    QuotientBetween(t, n, 0.0, 15552000.0);
  }

  lemma ProductAtMost(a: nat, b: nat, c: nat)
    requires a <= b
    ensures a * c <= b * c
  {
  }

  /** The latency sum fits 64 bits for up to SAFE_PACKETS packets. */
  lemma LatencySumFits(os: seq<Observation>)
    requires AllNonEmpty(os) && LatenciesInRange(os) && |os| <= SAFE_PACKETS
    ensures 0 <= Fold(os).sumLatency <= LARGEST_INT64
  {
    hide Fold, AllValues, TotalLatency, Sum, LatenciesInRange, AllNonEmpty;
    FoldIsSums(os);
    TotalLatencyBounds(os);
    ProductAtMost(|os|, SAFE_PACKETS, MAXIMUM_LATENCY);
  }

  /** Packets of one sample each, all as late as a good packet can be. */
  function LatestPackets(n: nat): (os: seq<Observation>)
    ensures |os| == n
  {
    seq(n, i => Observation(Doubles([0.0]), MAXIMUM_LATENCY))
  }

  lemma {:induction false} LatestPacketsLatency(n: nat)
    ensures TotalLatency(LatestPackets(n)) == n * MAXIMUM_LATENCY
  {
    if n > 0 {
      LatestPacketsLatency(n - 1);
      assert ButLast(LatestPackets(n)) == LatestPackets(n - 1);
    }
  }

  /** One packet more can overflow it. */
  lemma LatencySumCanOverflow()
    ensures
      var os := LatestPackets(SAFE_PACKETS + 1);
      AllNonEmpty(os) && LatenciesInRange(os) && Fold(os).sumLatency > LARGEST_INT64
  {
    var os := LatestPackets(SAFE_PACKETS + 1);
    LatestPacketsLatency(SAFE_PACKETS + 1);
    assert AllNonEmpty(os);
    hide Fold, AllValues, TotalLatency, Sum, AllNonEmpty;
    FoldIsSums(os);
  }
}
