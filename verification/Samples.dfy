/** The four kinds of sample vectors a packet can hold, and the sums taken over one packet. */
module Samples {
  import opened Common
  import opened Statistics

  const HALF_32 := 0x8000_0000
  const HALF_64 := 0x8000_0000_0000_0000

  type Int32 = x: int | -HALF_32 <= x < HALF_32
  type Int64 = x: int | -HALF_64 <= x < HALF_64

  datatype DataType = Integer32 | Integer64 | Float | Double | Unknown

  datatype Samples =
    | Ints32(i32: seq<Int32>)
    | Ints64(i64: seq<Int64>)
    | Floats(f32: seq<real>)
    | Doubles(f64: seq<real>)
    | NoSamples
  {
    function Size(): nat {
      match this
      case Ints32(xs) => |xs|
      case Ints64(xs) => |xs|
      case Floats(xs) => |xs|
      case Doubles(xs) => |xs|
      case NoSamples => 0
    }

    /** The numbers themselves, whatever vector they are stored in. */
    function Values(): (xs: seq<real>)
      ensures |xs| == Size()
    {
      match this
      case Ints32(xs) => AsReals(xs)
      case Ints64(xs) => AsReals(xs)
      case Floats(xs) => xs
      case Doubles(xs) => xs
      case NoSamples => []
    }
  }

  function AsReals(xs: seq<int>): seq<real> {
    seq(|xs|, i requires 0 <= i < |xs| => xs[i] as real)
  }

  /** Two's complement: the value that stays in an integer of range [-half, half) after overflow. */
  function Wrap(v: int, half: int): int
    requires half > 0
  {
    (v + half) % (2 * half) - half
  }

  /** What stays is in range and differs from the true value by a multiple of 2 * half. */
  lemma WrapIsCongruent(v: int, half: int)
    requires half > 0
    ensures -half <= Wrap(v, half) < half
    ensures v - Wrap(v, half) == (v + half) / (2 * half) * (2 * half)
  {
  }

  /** The products the inner product adds: formed in the integer width of the samples. */
  function IntegerSquares(xs: seq<int>, half: int): seq<real>
    requires half > 0
  {
    seq(|xs|, i requires 0 <= i < |xs| => Wrap(xs[i] * xs[i], half) as real)
  }

  datatype Sums = Sums(sum: real, sumSquared: real)

  function ComputeSumAndSumSquared(data: Samples): Sums {
    match data
    case Ints32(xs) => Sums(Sum(AsReals(xs)), Sum(IntegerSquares(xs, HALF_32)))
    case Ints64(xs) => Sums(Sum(AsReals(xs)), Sum(IntegerSquares(xs, HALF_64)))
    case Floats(xs) => Sums(Sum(xs), SumOfSquares(xs))
    case Doubles(xs) => Sums(Sum(xs), SumOfSquares(xs))
    case NoSamples => Sums(0.0, 0.0)
  }

  /** The largest magnitudes whose squares still fit the sample's own width. */
  const ROOT_32 := 46340
  const ROOT_64 := 3037000499

  ghost predicate AllWithin(xs: seq<int>, root: int) {
    forall i :: 0 <= i < |xs| ==> -root <= xs[i] <= root
  }

  ghost predicate SquaresFit(data: Samples) {
    match data
    case Ints32(xs) => AllWithin(xs, ROOT_32)
    case Ints64(xs) => AllWithin(xs, ROOT_64)
    case _ => true
  }

  predicate IsRoot(root: int, half: int) {
    0 <= root && root * root < half <= (root + 1) * (root + 1)
  }

  lemma RootsAreTight()
    ensures IsRoot(ROOT_32, HALF_32) && IsRoot(ROOT_64, HALF_64)
  {
  }

  lemma RemainderAtMost(u: nat, m: int)
    requires m > 0
    ensures u % m <= u
    ensures u % m == u <==> u < m
  {
  }

  lemma WrapOnlyLowers(v: nat, half: int)
    requires half > 0
    ensures Wrap(v, half) <= v
    ensures Wrap(v, half) == v <==> v < half
  {
    RemainderAtMost(v + half, 2 * half);
  }

  lemma SquareFits(x: int, root: int, half: int)
    requires IsRoot(root, half)
    ensures 0 <= x * x
    ensures x * x < half <==> -root <= x <= root
  {
    var a: nat := if x < 0 then -x else x;
    assert x * x == a * a;
    if a <= root {
      Monotone(a, root);
    } else {
      Monotone(root + 1, a);
    }
  }

  /** The thresholds themselves: one more in magnitude and the square no longer fits. */
  lemma LargestExactSamples(x: int)
    ensures x * x < 0x8000_0000 <==> -46340 <= x <= 46340
    ensures x * x < 0x8000_0000_0000_0000 <==> -3037000499 <= x <= 3037000499
  {
    RootsAreTight();
    SquareFits(x, ROOT_32, HALF_32);
    SquareFits(x, ROOT_64, HALF_64);
  }

  lemma Monotone(a: nat, b: nat)
    requires a <= b
    ensures a * a <= b * b
  {
  }

  /** Sums of termwise smaller sequences are smaller, and equal only when every term is. */
  lemma {:induction false} SumDominated(xs: seq<real>, ys: seq<real>)
    requires |xs| == |ys|
    requires forall i :: 0 <= i < |xs| ==> xs[i] <= ys[i]
    ensures Sum(xs) <= Sum(ys)
    ensures Sum(xs) == Sum(ys) <==> xs == ys
  {
    if xs != [] {
      var a, b := ButLast(xs), ButLast(ys);
      assert forall i :: 0 <= i < |a| ==> a[i] == xs[i] && b[i] == ys[i];
      SumDominated(a, b);
      assert xs == a + [Last(xs)] && ys == b + [Last(ys)];
    }
  }

  /** Each term of the integer inner product is at most the true square, and equal to it exactly inside the root. */
  lemma IntegerSquareTerm(x: int, root: int, half: int)
    requires IsRoot(root, half)
    ensures Wrap(x * x, half) as real <= Times(x as real, x as real)
    ensures Wrap(x * x, half) as real == Times(x as real, x as real) <==> -root <= x <= root
  {
    SquareFits(x, root, half);
    WrapOnlyLowers(x * x, half);
    assert (x * x) as real == x as real * x as real;
  }

  lemma IntegerSquaresExact(xs: seq<int>, root: int, half: int)
    requires half > 0 && IsRoot(root, half)
    ensures Sum(IntegerSquares(xs, half)) <= SumOfSquares(AsReals(xs))
    ensures Sum(IntegerSquares(xs, half)) == SumOfSquares(AsReals(xs)) <==> AllWithin(xs, root)
  {
    hide Times, Wrap, IsRoot;
    var wrapped, exact := IntegerSquares(xs, half), Squares(AsReals(xs));
    forall i | 0 <= i < |xs|
      ensures wrapped[i] <= exact[i]
      ensures wrapped[i] == exact[i] <==> -root <= xs[i] <= root
    {
      IntegerSquareTerm(xs[i], root, half);
    }
    SumDominated(wrapped, exact);
    if AllWithin(xs, root) {
      assert wrapped == exact;
    } else {
      var i :| 0 <= i < |xs| && !(-root <= xs[i] <= root);
      assert wrapped[i] != exact[i];
    }
  }

  /** The packet's sums are the mathematical ones exactly when every square fits its own width. */
  lemma SumsExact(data: Samples)
    ensures ComputeSumAndSumSquared(data).sum == Sum(data.Values())
    ensures ComputeSumAndSumSquared(data).sumSquared <= SumOfSquares(data.Values())
    ensures ComputeSumAndSumSquared(data).sumSquared == SumOfSquares(data.Values()) <==> SquaresFit(data)
  {
    RootsAreTight();
    hide IsRoot, Sum, SumOfSquares;
    match data
    case Ints32(xs) => IntegerSquaresExact(xs, ROOT_32, HALF_32);
    case Ints64(xs) => IntegerSquaresExact(xs, ROOT_64, HALF_64);
    case NoSamples =>
      NothingToSum();
    case _ =>
  }

  lemma NothingToSum()
    ensures Sum([]) == 0.0 && SumOfSquares([]) == 0.0
  {
    assert Squares([]) == [];
  }
}
