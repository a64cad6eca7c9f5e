/** Why exact sums model the double accumulators: where no integer sum is ever rounded. */
module Rounding {
  import opened Common
  import opened Samples
  import opened Statistics
  import opened Windows

  const TWO_53 := 0x20_0000_0000_0000

  predicate Exact(z: int) {
    -TWO_53 <= z <= TWO_53
  }

  /** Any rounding to a double that keeps the integers a double can hold. */
  ghost predicate KeepsExactIntegers(rounded: int -> int) {
    forall z :: Exact(z) ==> rounded(z) == z
  }

  function IntegerSum(xs: seq<int>): int {
    if xs == [] then 0 else IntegerSum(ButLast(xs)) + Last(xs)
  }

  /** The accumulation as it runs on doubles: the term and every partial sum are rounded. */
  function RoundedSum(xs: seq<int>, rounded: int -> int): int {
    if xs == [] then 0 else rounded(RoundedSum(ButLast(xs), rounded) + rounded(Last(xs)))
  }

  /** Every term and every partial sum is an integer that a double holds. */
  ghost predicate StaysExact(xs: seq<int>) {
    && (forall i :: 0 <= i < |xs| ==> Exact(xs[i]))
    && (forall i :: 0 <= i <= |xs| ==> Exact(IntegerSum(xs[..i])))
  }

  lemma StaysExactPrefix(xs: seq<int>)
    requires xs != [] && StaysExact(xs)
    ensures StaysExact(ButLast(xs)) && Exact(Last(xs)) && Exact(IntegerSum(xs))
  {
    var ys := ButLast(xs);
    forall i | 0 <= i <= |ys| ensures Exact(IntegerSum(ys[..i])) {
      assert ys[..i] == xs[..i];
    }
    assert xs[..|xs|] == xs;
  }

  /** While the terms and partial sums stay within 2^53 in magnitude nothing is rounded. */
  lemma {:induction false} RoundedSumIsExact(xs: seq<int>, rounded: int -> int)
    requires KeepsExactIntegers(rounded) && StaysExact(xs)
    ensures RoundedSum(xs, rounded) == IntegerSum(xs)
  {
    if xs != [] {
      StaysExactPrefix(xs);
      RoundedSumIsExact(ButLast(xs), rounded);
      assert rounded(Last(xs)) == Last(xs);
    }
  }

  /** The sums of the model are those integer sums. */
  lemma {:induction false} RealSumOfIntegers(xs: seq<int>)
    ensures Sum(AsReals(xs)) == IntegerSum(xs) as real
  {
    if xs != [] {
      RealSumOfIntegers(ButLast(xs));
      assert ButLast(AsReals(xs)) == AsReals(ButLast(xs));
    }
  }

  // ---- one packet, of either width ----

  function IntegerProducts(xs: seq<int>, half: int): (ps: seq<int>)
    requires half > 0
    ensures |ps| == |xs|
  {
    seq(|xs|, i requires 0 <= i < |xs| => Wrap(xs[i] * xs[i], half))
  }

  predicate HoldsIntegers(data: Samples) {
    data.Ints32? || data.Ints64? || data.NoSamples?
  }

  function Terms(data: Samples): seq<int>
    requires HoldsIntegers(data)
  {
    match data
    case Ints32(xs) => xs
    case Ints64(xs) => xs
    case NoSamples => []
  }

  function Products(data: Samples): seq<int>
    requires HoldsIntegers(data)
  {
    match data
    case Ints32(xs) => IntegerProducts(xs, HALF_32)
    case Ints64(xs) => IntegerProducts(xs, HALF_64)
    case NoSamples => []
  }

  datatype IntegerSums = IntegerSums(sum: int, sumSquared: int)

  function RoundedSums(data: Samples, rounded: int -> int): IntegerSums
    requires HoldsIntegers(data)
  {
    IntegerSums(RoundedSum(Terms(data), rounded), RoundedSum(Products(data), rounded))
  }

  ghost predicate PacketStaysExact(data: Samples) {
    HoldsIntegers(data) && StaysExact(Terms(data)) && StaysExact(Products(data))
  }

  lemma ProductsAreSquares(xs: seq<int>, half: int)
    requires half > 0
    ensures AsReals(IntegerProducts(xs, half)) == IntegerSquares(xs, half)
  {
    hide Wrap;
  }

  /** Both accumulators of a packet of either integer width are exact while their terms and partial sums are. */
  lemma PacketSumsNeverRound(data: Samples, rounded: int -> int)
    requires KeepsExactIntegers(rounded) && PacketStaysExact(data)
    ensures
      var r := RoundedSums(data, rounded);
      ComputeSumAndSumSquared(data) == Sums(r.sum as real, r.sumSquared as real)
  {
    RoundedSumIsExact(Terms(data), rounded);
    RoundedSumIsExact(Products(data), rounded);
    RealSumOfIntegers(Terms(data));
    RealSumOfIntegers(Products(data));
    match data
    case Ints32(xs) => ProductsAreSquares(xs, HALF_32);
    case Ints64(xs) => ProductsAreSquares(xs, HALF_64);
    case NoSamples =>
  }

  // ---- a window of packets ----

  /** The window's double accumulators, rounded after every packet. An empty packet is not added. */
  function RoundedFold(os: seq<Observation>, rounded: int -> int): IntegerSums
    requires forall i :: 0 <= i < |os| ==> HoldsIntegers(os[i].samples)
  {
    if os == [] then IntegerSums(0, 0)
    else
      var before, data := RoundedFold(ButLast(os), rounded), Last(os).samples;
      if data.Size() < 1 then before
      else
        var r := RoundedSums(data, rounded);
        IntegerSums(rounded(before.sum + r.sum), rounded(before.sumSquared + r.sumSquared))
  }

  ghost predicate WithinDouble(x: real) {
    -(TWO_53 as real) <= x <= TWO_53 as real
  }

  /** Every packet stays exact, and so do the running sums of the window. */
  ghost predicate WindowStaysExact(os: seq<Observation>) {
    && (forall i :: 0 <= i < |os| ==> PacketStaysExact(os[i].samples))
    && (forall i :: 0 <= i <= |os| ==>
          WithinDouble(Fold(os[..i]).sum) && WithinDouble(Fold(os[..i]).sumSquared))
  }

  lemma WindowStaysExactPrefix(os: seq<Observation>)
    requires os != [] && WindowStaysExact(os)
    ensures WindowStaysExact(ButLast(os)) && PacketStaysExact(Last(os).samples)
    ensures WithinDouble(Fold(os).sum) && WithinDouble(Fold(os).sumSquared)
  {
    hide Fold, PacketStaysExact;
    var rest := ButLast(os);
    forall i | 0 <= i <= |rest| ensures WithinDouble(Fold(rest[..i]).sum) && WithinDouble(Fold(rest[..i]).sumSquared) {
      assert rest[..i] == os[..i];
    }
    assert forall i :: 0 <= i < |rest| ==> rest[i] == os[i];
    assert os[..|os|] == os;
  }

  lemma ExactAddition(a: int, b: int, rounded: int -> int)
    requires KeepsExactIntegers(rounded) && WithinDouble(a as real + b as real)
    ensures rounded(a + b) as real == a as real + b as real
  {
    assert (a + b) as real == a as real + b as real;
    assert Exact(a + b);
  }

  lemma FoldLast(os: seq<Observation>)
    requires os != []
    ensures
      var before, data := Fold(ButLast(os)), Last(os).samples;
      var sums := ComputeSumAndSumSquared(data);
      && Fold(os).sum == (if data.Size() < 1 then before.sum else before.sum + sums.sum)
      && Fold(os).sumSquared == (if data.Size() < 1 then before.sumSquared else before.sumSquared + sums.sumSquared)
  {
    hide ComputeSumAndSumSquared;
  }

  /** The rounded accumulators of a window are those of the model while the running sums stay within 2^53. */
  lemma {:induction false} RoundedFoldIsFold(os: seq<Observation>, rounded: int -> int)
    requires KeepsExactIntegers(rounded) && WindowStaysExact(os)
    ensures
      var r := RoundedFold(os, rounded);
      Fold(os).sum == r.sum as real && Fold(os).sumSquared == r.sumSquared as real
  {
    hide StaysExact, Terms, Products, ComputeSumAndSumSquared, RoundedSums, WithinDouble, KeepsExactIntegers;
    if os != [] {
      WindowStaysExactPrefix(os);
      FoldLast(os);
      var rest, data := ButLast(os), Last(os).samples;
      RoundedFoldIsFold(rest, rounded);
      PacketSumsNeverRound(data, rounded);
      hide Fold, WindowStaysExact;
      var before, r := RoundedFold(rest, rounded), RoundedSums(data, rounded);
      if data.Size() > 0 {
        ExactAddition(before.sum, r.sum, rounded);
        ExactAddition(before.sumSquared, r.sumSquared, rounded);
      }
    }
  }

  // ---- a bound a caller can check: few enough 32-bit samples ----

  /** Up to 2^53 / bound terms of magnitude at most bound stay exact. */
  lemma {:induction false} FewTermsStayExact(xs: seq<int>, bound: nat)
    requires AllWithin(xs, bound) && |xs| * bound <= TWO_53
    ensures StaysExact(xs)
    ensures -(|xs| * bound) <= IntegerSum(xs) <= |xs| * bound
  {
    if xs == [] {
      assert xs[..0] == [];
    } else {
      var ys := ButLast(xs);
      OneMoreTerm(|ys|, bound);
      assert AllWithin(ys, bound) by {
        assert forall i :: 0 <= i < |ys| ==> ys[i] == xs[i];
      }
      FewTermsStayExact(ys, bound);
      forall i | 0 <= i <= |xs| ensures Exact(IntegerSum(xs[..i])) {
        if i < |xs| {
          assert xs[..i] == ys[..i];
        } else {
          assert xs[..i] == xs;
        }
      }
    }
  }

  lemma OneMoreTerm(n: nat, bound: nat)
    ensures (n + 1) * bound == n * bound + bound
    ensures n * bound >= 0
  {
  }

  /** How many 32-bit terms a double accumulator takes without rounding. */
  const EXACT_TERMS := 4194304

  lemma WrapInRange(v: int, half: int)
    requires half > 0
    ensures -half <= Wrap(v, half) < half
  {
  }

  lemma ProductsInRange(xs: seq<int>, half: int)
    requires half > 0
    ensures AllWithin(IntegerProducts(xs, half), half)
  {
    hide Wrap;
    forall i | 0 <= i < |xs| ensures -half <= IntegerProducts(xs, half)[i] <= half {
      WrapInRange(xs[i] * xs[i], half);
    }
  }

  lemma Int32PacketsStayExact(xs: seq<Int32>)
    requires |xs| <= EXACT_TERMS
    ensures PacketStaysExact(Ints32(xs))
    ensures -(|xs| * HALF_32) <= IntegerSum(xs) <= |xs| * HALF_32
    ensures -(|xs| * HALF_32) <= IntegerSum(Products(Ints32(xs))) <= |xs| * HALF_32
  {
    hide StaysExact, IntegerSum, Wrap;
    ProductsInRange(xs, HALF_32);
    assert AllWithin(xs, HALF_32);
    FewTermsStayExact(xs, HALF_32);
    FewTermsStayExact(IntegerProducts(xs, HALF_32), HALF_32);
  }

  /** For up to 2^22 32-bit samples neither double accumulator of a packet ever rounds. */
  lemma Int32SumsNeverRound(xs: seq<Int32>, rounded: int -> int)
    requires KeepsExactIntegers(rounded) && |xs| <= EXACT_TERMS
    ensures
      var r := RoundedSums(Ints32(xs), rounded);
      ComputeSumAndSumSquared(Ints32(xs)) == Sums(r.sum as real, r.sumSquared as real)
  {
    Int32PacketsStayExact(xs);
    PacketSumsNeverRound(Ints32(xs), rounded);
  }

  /** The running sums grow by at most 2^31 for each sample. */
  ghost predicate SumsWithin(a: Running) {
    && -((a.samplesCount * HALF_32) as real) <= a.sum <= (a.samplesCount * HALF_32) as real
    && -((a.samplesCount * HALF_32) as real) <= a.sumSquared <= (a.samplesCount * HALF_32) as real
  }

  ghost predicate AllInts32(os: seq<Observation>) {
    forall i :: 0 <= i < |os| ==> os[i].samples.Ints32?
  }

  lemma Int32PacketSums(xs: seq<Int32>)
    requires |xs| <= EXACT_TERMS
    ensures
      var s := ComputeSumAndSumSquared(Ints32(xs));
      && -((|xs| * HALF_32) as real) <= s.sum <= (|xs| * HALF_32) as real
      && -((|xs| * HALF_32) as real) <= s.sumSquared <= (|xs| * HALF_32) as real
  {
    Int32PacketsStayExact(xs);
    RealSumOfIntegers(xs);
    RealSumOfIntegers(Products(Ints32(xs)));
    ProductsAreSquares(xs, HALF_32);
    hide IntegerSum, Sum, PacketStaysExact, AsReals, IntegerSquares, IntegerProducts;
  }

  lemma {:induction false} SmallWindowSums(os: seq<Observation>)
    requires AllInts32(os) && Fold(os).samplesCount <= EXACT_TERMS
    ensures SumsWithin(Fold(os))
    ensures forall i :: 0 <= i < |os| ==> os[i].samples.Size() <= EXACT_TERMS
    ensures forall i :: 0 <= i <= |os| ==> SumsWithin(Fold(os[..i])) && Fold(os[..i]).samplesCount <= EXACT_TERMS
  {
    if os == [] {
      assert os[..0] == [];
    } else {
      var rest, o := ButLast(os), Last(os);
      assert forall i :: 0 <= i < |rest| ==> rest[i] == os[i];
      assert Fold(os) == Add(Fold(rest), o);
      SmallWindowSums(rest);
      Int32PacketSums(o.samples.i32);
      hide Fold, ComputeSumAndSumSquared;
      forall i | 0 <= i <= |os| ensures SumsWithin(Fold(os[..i])) && Fold(os[..i]).samplesCount <= EXACT_TERMS {
        if i < |os| {
          assert os[..i] == rest[..i];
        } else {
          assert os[..i] == os;
        }
      }
    }
  }

  /** A window of up to 2^22 32-bit samples, however they are split into packets, is never rounded. */
  lemma SmallWindowsNeverRound(os: seq<Observation>, rounded: int -> int)
    requires KeepsExactIntegers(rounded)
    requires AllInts32(os) && Fold(os).samplesCount <= EXACT_TERMS
    ensures
      var r := RoundedFold(os, rounded);
      Fold(os).sum == r.sum as real && Fold(os).sumSquared == r.sumSquared as real
  {
    SmallWindowSums(os);
    forall i | 0 <= i < |os| ensures PacketStaysExact(os[i].samples) {
      Int32PacketsStayExact(os[i].samples.i32);
    }
    hide Fold, RoundedFold, PacketStaysExact;
    RoundedFoldIsFold(os, rounded);
  }
}
