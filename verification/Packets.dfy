/** The data packet: four sample vectors behind one type tag, and an end time derived by every setter. */
module Packets {
  import opened Common
  import opened Samples
  import opened Statistics
  import opened StreamNames

  const MICROSECONDS_PER_SECOND := 1000000

  /** Rounding to the nearest integer, halves away from zero. */
  function Round(x: real): int {
    if x >= 0.0 then (x + 0.5).Floor else -((-x + 0.5).Floor)
  }

  /** The exact time from the first to the last of n samples, in microseconds. */
  function ExactDuration(n: nat, rate: real): real
    requires n > 0 && rate > 0.0
  {
    (n - 1) as real / rate * MICROSECONDS_PER_SECOND as real
  }

  function EndTime(start: int, rate: real, n: nat): int {
    if n > 0 && rate > 0.0 then start + Round(ExactDuration(n, rate)) else start
  }

  datatype PacketError = RateNotPositive | RateNotSet | NoData | IdentifierIncomplete

  /** What a packet holds. */
  datatype PacketValue = PacketValue(id: Option<Identifier>, start: int, end: int, rate: real, samples: Samples) {
    predicate Valid() {
      && end == EndTime(start, rate, samples.Size())
      && (samples.NoSamples? || samples.Size() > 0)
      && rate >= 0.0
      && (id.Some? ==> id.value.Complete())
    }

    /** The end time computed again from the other fields. */
    function Refreshed(): PacketValue {
      this.(end := EndTime(start, rate, samples.Size()))
    }
  }

  const BLANK := PacketValue(None, 0, 0, 0.0, NoSamples)

  /** The values that the class below can hold. */
  type BuiltPacket = p: PacketValue | p.Valid() witness BLANK

  datatype Operation =
    | SetRate(rate: real)
    | SetStart(seconds: real)
    | SetStartMicroseconds(start: int)
    | SetSamples(samples: Samples)
    | SetIdentifier(id: Identifier)
    | Clear

  /** The effect of one public call. A call that throws leaves the packet as it was. */
  function Apply(op: Operation, p: PacketValue): PacketValue {
    match op
    case SetRate(r) => if r <= 0.0 then p else p.(rate := r).Refreshed()
    case SetStart(s) => p.(start := Round(s * MICROSECONDS_PER_SECOND as real)).Refreshed()
    case SetStartMicroseconds(t) => p.(start := t).Refreshed()
    case SetSamples(d) => if d.Size() == 0 then p.Refreshed() else p.(samples := d).Refreshed()
    case SetIdentifier(id) => if id.Complete() then p.(id := Some(id)) else p
    case Clear => BLANK
  }

  function ApplyAll(ops: seq<Operation>, p: PacketValue): PacketValue {
    if ops == [] then p else Apply(Last(ops), ApplyAll(ButLast(ops), p))
  }

  /** Every sequence of calls, in any order and with failing calls among them, leaves a consistent packet. */
  lemma {:induction false} AnyCallsStayValid(ops: seq<Operation>)
    ensures ApplyAll(ops, BLANK).Valid()
  {
    if ops != [] {
      AnyCallsStayValid(ButLast(ops));
    }
  }

  // What one call sets in each field, if it has an effect on it.

  function RateSet(op: Operation): Option<real> {
    if op.SetRate? && op.rate > 0.0 then Some(op.rate) else None
  }

  function StartSet(op: Operation): Option<int> {
    match op
    case SetStart(s) => Some(Round(s * MICROSECONDS_PER_SECOND as real))
    case SetStartMicroseconds(t) => Some(t)
    case _ => None
  }

  function SamplesSet(op: Operation): Option<Samples> {
    if op.SetSamples? && op.samples.Size() > 0 then Some(op.samples) else None
  }

  function IdentifierSet(op: Operation): Option<Option<Identifier>> {
    if op.SetIdentifier? && op.id.Complete() then Some(Some(op.id)) else None
  }

  /** The last value that was set since the packet was last cleared. */
  function Latest<T>(ops: seq<Operation>, initial: T, effect: Operation -> Option<T>): T {
    if ops == [] || Last(ops).Clear? then initial
    else if effect(Last(ops)).Some? then effect(Last(ops)).value
    else Latest(ButLast(ops), initial, effect)
  }

  /** However the calls were ordered, each field holds what was last set, and the end time follows from the rest. */
  lemma {:induction false} FieldsAreLatest(ops: seq<Operation>)
    ensures
      var start, rate := Latest(ops, 0, StartSet), Latest(ops, 0.0, RateSet);
      var samples := Latest(ops, NoSamples, SamplesSet);
      ApplyAll(ops, BLANK)
        == PacketValue(Latest(ops, None, IdentifierSet), start, EndTime(start, rate, samples.Size()), rate, samples)
  {
    if ops != [] {
      FieldsAreLatest(ButLast(ops));
      AnyCallsStayValid(ButLast(ops));
      hide EndTime, Round;
    }
  }

  function Field(op: Operation): nat {
    match op
    case SetRate(_) => 0
    case SetStart(_) => 1
    case SetStartMicroseconds(_) => 1
    case SetSamples(_) => 2
    case SetIdentifier(_) => 3
    case Clear => 4
  }

  /** Setters of different fields commute although each of them rewrites the end time. */
  lemma SettersCommute(p: PacketValue, a: Operation, b: Operation)
    requires p.Valid()
    requires !a.Clear? && !b.Clear? && Field(a) != Field(b)
    ensures Apply(a, Apply(b, p)) == Apply(b, Apply(a, p))
  {
    hide EndTime, Round;
  }

  /** The nearest integer, and at an exact half the one farther from zero. */
  lemma RoundIsNearest(x: real)
    ensures x >= 0.0 ==> Round(x) >= 0 && -0.5 < Round(x) as real - x <= 0.5
    ensures Round(-x) == -Round(x)
  {
  }

  lemma ExactDurationNonNegative(n: nat, rate: real)
    requires n > 0 && rate > 0.0
    ensures ExactDuration(n, rate) >= 0.0
  {
    Quotient((n - 1) as real, rate);
  }

  /**
   * A packet never ends before it starts. Its last sample is n - 1 sample steps after the first, and its end is
   * that time to the nearest microsecond, rounded up at a half.
   */
  lemma EndTimeIsLastSample(start: int, rate: real, n: nat)
    ensures EndTime(start, rate, n) >= start
    ensures n == 0 || rate <= 0.0 ==> EndTime(start, rate, n) == start
    ensures n > 0 && rate > 0.0 ==>
      var gap := (EndTime(start, rate, n) - start) as real * rate - (n - 1) as real * 1000000.0;
      -rate < 2.0 * gap <= rate
  {
    if n > 0 && rate > 0.0 {
      ExactDurationNonNegative(n, rate);
      RoundIsNearest(ExactDuration(n, rate));
      Quotient((n - 1) as real, rate);
      var steps, end := (n - 1) as real, EndTime(start, rate, n);
      assert (end - start) as real == Round(ExactDuration(n, rate)) as real;
      ScaledGap((end - start) as real, steps / rate, steps, rate);
    }
  }

  lemma ScaledGap(rounded: real, seconds: real, steps: real, rate: real)
    requires rate > 0.0 && seconds * rate == steps && -0.5 < rounded - seconds * 1000000.0 <= 0.5
    ensures -rate < 2.0 * (rounded * rate - steps * 1000000.0) <= rate
  {
    var gap := rounded - seconds * 1000000.0;
    assert gap * rate == rounded * rate - steps * 1000000.0 by {
      assert (rounded - seconds * 1000000.0) * rate == rounded * rate - seconds * rate * 1000000.0;
    }
    OrderTimes(gap, -0.5, rate);
    OrderTimes(gap, 0.5, rate);
    assert -0.5 * rate < gap * rate <= 0.5 * rate;
  }

  /** A start time in seconds is kept to the nearest microsecond. */
  lemma StartIsNearestMicrosecond(p: PacketValue, seconds: real)
    ensures
      var start := Apply(SetStart(seconds), p).start;
      && -0.5 <= start as real - seconds * 1000000.0 <= 0.5
      && (seconds >= 0.0 ==> -0.5 < start as real - seconds * 1000000.0)
      && (seconds <= 0.0 ==> start as real - seconds * 1000000.0 < 0.5)
  {
    RoundIsNearest(seconds * 1000000.0);
    RoundIsNearest(-(seconds * 1000000.0));
  }

  class Packet {
    var identifier: Identifier
    var hasIdentifier: bool
    var integer32Data: seq<Int32>
    var integer64Data: seq<Int64>
    var floatData: seq<real>
    var doubleData: seq<real>
    var startTime: int
    var endTime: int
    var samplingRate: real
    var dataType: DataType

    /** Only the vector that the tag names may hold samples, and it does. */
    ghost predicate TagNamesData()
      reads this
    {
      && (integer32Data != [] <==> dataType == Integer32)
      && (integer64Data != [] <==> dataType == Integer64)
      && (floatData != [] <==> dataType == Float)
      && (doubleData != [] <==> dataType == Double)
    }

    ghost function Data(): Samples
      reads this
    {
      match dataType
      case Integer32 => Ints32(integer32Data)
      case Integer64 => Ints64(integer64Data)
      case Float => Floats(floatData)
      case Double => Doubles(doubleData)
      case Unknown => NoSamples
    }

    ghost function Value(): PacketValue
      reads this
    {
      PacketValue(if hasIdentifier then Some(identifier) else None, startTime, endTime, samplingRate, Data())
    }

    ghost predicate Valid()
      reads this
    {
      TagNamesData() && Value().Valid()
    }

    constructor ()
      ensures Valid() && Value() == BLANK
    {
      identifier, hasIdentifier := UNSET, false;
      integer32Data, integer64Data, floatData, doubleData := [], [], [], [];
      startTime, endTime, samplingRate := 0, 0, 0.0;
      dataType := Unknown;
    }

    method GetNumberOfSamples() returns (n: nat)
      ensures n == Data().Size()
    {
      match dataType
      case Unknown => n := 0;
      case Integer32 => n := |integer32Data|;
      case Float => n := |floatData|;
      case Double => n := |doubleData|;
      case Integer64 => n := |integer64Data|;
    }

    method ClearData()
      modifies this`integer32Data, this`integer64Data, this`floatData, this`doubleData, this`dataType
      ensures TagNamesData() && Data() == NoSamples
    {
      integer32Data := [];
      integer64Data := [];
      floatData := [];
      doubleData := [];
      dataType := Unknown;
    }

    method UpdateEndTime()
      modifies this`endTime
      ensures Value() == old(Value()).Refreshed()
    {
      endTime := startTime;
      var nSamples := GetNumberOfSamples();
      if nSamples > 0 && samplingRate > 0.0 {
        var traceDuration := Round((nSamples - 1) as real / samplingRate * MICROSECONDS_PER_SECOND as real);
        endTime := startTime + traceDuration;
      }
    }

    method ClearAll()
      modifies this
      ensures Valid() && Value() == Apply(Clear, old(Value()))
    {
      ClearData();
      identifier, hasIdentifier := UNSET, false;
      startTime, endTime, samplingRate := 0, 0, 0.0;
    }

    method SetStreamIdentifier(id: Identifier) returns (r: Result<(), PacketError>)
      requires Valid()
      modifies this
      ensures Valid() && Value() == Apply(SetIdentifier(id), old(Value()))
      ensures r.Ok? <==> id.Complete()
      ensures r.Ok? ==> hasIdentifier && identifier == id
      ensures r.Err? ==> r.error == IdentifierIncomplete
    {
      if id.network == "" || id.station == "" || id.channel == "" || id.location == "" {
        return Err(IdentifierIncomplete);
      }
      identifier, hasIdentifier := id, true;
      return Ok(());
    }

    method SetSamplingRate(rate: real) returns (r: Result<(), PacketError>)
      requires Valid()
      modifies this
      ensures Valid() && Value() == Apply(SetRate(rate), old(Value()))
      ensures r.Ok? <==> rate > 0.0
      ensures r.Ok? ==> samplingRate == rate
      ensures r.Err? ==> r.error == RateNotPositive
    {
      if rate <= 0.0 {
        return Err(RateNotPositive);
      }
      samplingRate := rate;
      UpdateEndTime();
      return Ok(());
    }

    method SetStartTimeMicroseconds(start: int)
      requires Valid()
      modifies this
      ensures Valid() && Value() == Apply(SetStartMicroseconds(start), old(Value()))
      ensures startTime == start
    {
      startTime := start;
      UpdateEndTime();
    }

    method SetStartTime(seconds: real)
      requires Valid()
      modifies this
      ensures Valid() && Value() == Apply(SetStart(seconds), old(Value()))
    {
      SetStartTimeMicroseconds(Round(seconds * MICROSECONDS_PER_SECOND as real));
    }

    /** Sets the samples. An empty vector is ignored: the old samples and their type stay. */
    method SetData(data: Samples)
      requires Valid()
      modifies this
      ensures Valid() && Value() == Apply(SetSamples(data), old(Value()))
      ensures Data() == if data.Size() > 0 then data else old(Data())
    {
      hide EndTime, Round;
      match data {
        case Ints32(xs) =>
          if xs != [] {
            ClearData();
            integer32Data, dataType := xs, Integer32;
          }
        case Ints64(xs) =>
          if xs != [] {
            ClearData();
            integer64Data, dataType := xs, Integer64;
          }
        case Floats(xs) =>
          if xs != [] {
            ClearData();
            floatData, dataType := xs, Float;
          }
        case Doubles(xs) =>
          if xs != [] {
            ClearData();
            doubleData, dataType := xs, Double;
          }
        case NoSamples =>
      }
      UpdateEndTime();
    }

    method GetEndTime() returns (r: Result<int, PacketError>)
      requires Valid()
      ensures r == EndTimeOf(Value())
      ensures r == if samplingRate <= 0.0 then Err(RateNotSet)
                   else if Data().Size() == 0 then Err(NoData) else Ok(endTime)
    {
      if !(samplingRate > 0.0) {
        return Err(RateNotSet);
      }
      var nSamples := GetNumberOfSamples();
      if nSamples < 1 {
        return Err(NoData);
      }
      return Ok(endTime);
    }
  }

  function EndTimeOf(p: PacketValue): Result<int, PacketError> {
    if !(p.rate > 0.0) then Err(RateNotSet)
    else if p.samples.Size() < 1 then Err(NoData)
    else Ok(p.end)
  }
}
