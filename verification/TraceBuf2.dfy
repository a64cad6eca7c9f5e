/** Decoding an Earthworm TraceBuf2 message. */
module TraceBuf2 {
  import opened Bytes
  import opened Common
  import opened Samples

  type Int16 = x: int | -0x8000 <= x < 0x8000

  /** The sample vectors. Floats and doubles stay bit patterns. */
  datatype Payload =
    | Shorts(i16: seq<Int16>)
    | Integers(i32: seq<Int32>)
    | Longs(i64: seq<Int64>)
    | Singles(f32: seq<nat>)
    | DoublePatterns(f64: seq<nat>)
    | NoPayload
  {
    function Size(): nat {
      match this
      case Shorts(xs) => |xs|
      case Integers(xs) => |xs|
      case Longs(xs) => |xs|
      case Singles(xs) => |xs|
      case DoublePatterns(xs) => |xs|
      case NoPayload => 0
    }
  }

  /** What a decoded message holds. Times are in seconds. */
  datatype Trace = Trace(
    pin: int, samples: int, start: real, end: real, rate: real, quality: int,
    network: string, station: string, channel: string, location: string, payload: Payload)

  datatype WireError = WidthUnknown | HalfFloat | RateNotPositive | CountNegative | FloatWidth

  const HEADER_LENGTH := 64
  const STATION_LENGTH := 6
  const NETWORK_LENGTH := 8
  const CHANNEL_LENGTH := 3
  const LOCATION_LENGTH := 2

  function Min(a: nat, b: nat): nat {
    if a < b then a else b
  }

  function CopyString(s: string, outputLength: nat): string {
    s[..Min(|s|, outputLength)]
  }

  /** The text from an offset to the next NUL, or to the end of the buffer. */
  function CString(message: seq<Byte>, offset: nat): string
    decreases |message| - offset
  {
    if offset >= |message| || message[offset] == 0 then ""
    else [message[offset] as char] + CString(message, offset + 1)
  }

  datatype Format = Format(floating: bool, swap: bool, width: nat)

  /** The format bytes on a little-endian host. An unknown type letter is read as native integers. */
  function FormatOf(message: seq<Byte>): Result<Format, WireError>
    requires |message| >= HEADER_LENGTH
  {
    var letter, digit := message[57] as char, message[58] as char;
    var floating, swap := letter == 'f' || letter == 't', letter == 's' || letter == 't';
    if digit == '4' then Ok(Format(floating, swap, 4))
    else if digit == '8' then Ok(Format(floating, swap, 8))
    else if digit != '2' then Err(WidthUnknown)
    else if floating then Err(HalfFloat)
    else Ok(Format(floating, swap, 2))
  }

  /** The sample count that the header declares. */
  function DeclaredCount(message: seq<Byte>, swap: bool): int
    requires |message| >= HEADER_LENGTH
  {
    UnpackInt(message[4..8], swap)
  }

  /** The buffer reaches as far as its header says. */
  predicate LongEnough(message: seq<Byte>) {
    && |message| >= HEADER_LENGTH
    && match FormatOf(message)
       case Err(_) => true
       case Ok(f) =>
         DeclaredCount(message, f.swap) >= 0 ==>
           HEADER_LENGTH + DeclaredCount(message, f.swap) * f.width <= |message|
  }

  lemma UnpackedFit(bs: seq<Byte>, n: nat, w: nat, swap: bool)
    requires n * w <= |bs|
    ensures forall i :: 0 <= i < n ==> Fits(UnpackInts(bs, n, w, swap)[i], w)
  {
    hide Fits, UnpackInt;
    forall i | 0 <= i < n ensures Fits(UnpackInts(bs, n, w, swap)[i], w) {
      SlotBounds(i, n, w, |bs|);
      PackUnpack(Slot(bs, i, w), swap);
    }
  }

  /** The samples behind the header. */
  function PayloadOf(data: seq<Byte>, n: nat, f: Format): (p: Payload)
    requires n * f.width <= |data|
    requires f.width in {2, 4, 8}
    requires f.floating ==> f.width == 4
    ensures p.Size() == n
  {
    if f.floating then Singles(UnpackWords(data, n, 4, f.swap))
    else
      Widths();
      UnpackedFit(data, n, f.width, f.swap);
      var xs := UnpackInts(data, n, f.width, f.swap);
      if f.width == 2 then Shorts(xs) else if f.width == 4 then Integers(xs) else Longs(xs)
  }

  /** The decoder once the format is known. The function double gives a 64-bit pattern its value. */
  function DecodeAs(message: seq<Byte>, f: Format, double: nat -> real): Result<Trace, WireError>
    requires LongEnough(message) && FormatOf(message) == Ok(f)
  {
    var n := DeclaredCount(message, f.swap);
    var start, rate := double(UnpackBits(message[8..16], f.swap)), double(UnpackBits(message[24..32], f.swap));
    if rate <= 0.0 then Err(RateNotPositive)
    else if n < 0 then Err(CountNegative)
    else if f.floating && f.width != 4 then Err(FloatWidth)
    else
      Ok(Trace(
           UnpackInt(message[0..4], f.swap), n, start, start, rate, UnpackInt(message[60..62], f.swap),
           CopyString(CString(message, 39), NETWORK_LENGTH), CopyString(CString(message, 32), STATION_LENGTH),
           CopyString(CString(message, 48), CHANNEL_LENGTH), CopyString(CString(message, 52), LOCATION_LENGTH),
           PayloadOf(message[HEADER_LENGTH..], n, f)))
  }

  function Decode(message: seq<Byte>, double: nat -> real): Result<Trace, WireError>
    requires LongEnough(message)
  {
    match FormatOf(message)
    case Err(e) => Err(e)
    case Ok(f) => DecodeAs(message, f, double)
  }

  // ---- the program ----

  datatype WireType = Int16Data | Int32Data | Int64Data | FloatData | DoubleData | UnknownData

  class TraceBuf2 {
    var data16i: seq<Int16>
    var data32i: seq<Int32>
    var data64i: seq<Int64>
    var data32f: seq<nat>
    var data64f: seq<nat>
    var dataType: WireType
    var network: string
    var station: string
    var channel: string
    var location: string
    var startTime: real
    var endTime: real
    var samplingRate: real
    var pinNumber: int
    var quality: int
    var samples: int

    ghost predicate OnlyTaggedData()
      reads this
    {
      && (data16i != [] ==> dataType == Int16Data)
      && (data32i != [] ==> dataType == Int32Data)
      && (data64i != [] ==> dataType == Int64Data)
      && (data32f != [] ==> dataType == FloatData)
      && (data64f != [] ==> dataType == DoubleData)
    }

    ghost function Data(): Payload
      reads this
    {
      match dataType
      case Int16Data => Shorts(data16i)
      case Int32Data => Integers(data32i)
      case Int64Data => Longs(data64i)
      case FloatData => Singles(data32f)
      case DoubleData => DoublePatterns(data64f)
      case UnknownData => NoPayload
    }

    ghost function Value(): Trace
      reads this
    {
      Trace(pinNumber, samples, startTime, endTime, samplingRate, quality, network, station, channel, location, Data())
    }

    constructor ()
      ensures OnlyTaggedData()
      ensures Value() == Trace(0, 0, 0.0, 0.0, 0.0, 0, "", "", "", "", NoPayload)
    {
      data16i, data32i, data64i, data32f, data64f, dataType := [], [], [], [], [], UnknownData;
      network, station, channel, location := "", "", "", "";
      startTime, endTime, samplingRate := 0.0, 0.0, 0.0;
      pinNumber, quality, samples := 0, 0, 0;
    }

    method SetData(p: Payload)
      modifies this`data16i, this`data32i, this`data64i, this`data32f, this`data64f, this`dataType
      ensures OnlyTaggedData() && Data() == p
    {
      data16i, data32i, data64i, data32f, data64f := [], [], [], [], [];
      dataType := UnknownData;
      match p {
        case Integers(xs) => data32i, dataType := xs, Int32Data;
        case Longs(xs) => data64i, dataType := xs, Int64Data;
        case Shorts(xs) => data16i, dataType := xs, Int16Data;
        case DoublePatterns(xs) => data64f, dataType := xs, DoubleData;
        case Singles(xs) => data32f, dataType := xs, FloatData;
        case NoPayload =>
      }
    }

    method UpdateEndTime()
      modifies this`endTime
      ensures endTime == if samples > 0 && samplingRate > 0.0
                         then startTime + (samples - 1) as real / samplingRate else startTime
    {
      endTime := startTime;
      if samples > 0 && samplingRate > 0.0 {
        endTime := startTime + (samples - 1) as real / samplingRate;
      }
    }

    method SetStartTime(start: real)
      modifies this`startTime, this`endTime
      ensures startTime == start
      ensures samples <= 0 ==> endTime == start
    {
      startTime := start;
      UpdateEndTime();
    }

    method SetSamplingRate(rate: real) returns (r: Result<(), WireError>)
      modifies this`samplingRate, this`endTime
      ensures r == if rate <= 0.0 then Err(RateNotPositive) else Ok(())
      ensures r.Ok? ==> samplingRate == rate
      ensures r.Ok? && samples <= 0 ==> endTime == startTime
    {
      if rate <= 0.0 {
        return Err(RateNotPositive);
      }
      samplingRate := rate;
      UpdateEndTime();
      return Ok(());
    }

    /** The end time is not computed again here. */
    method SetNumberOfSamples(n: int) returns (r: Result<(), WireError>)
      modifies this`samples
      ensures r == if n < 0 then Err(CountNegative) else Ok(())
      ensures r.Ok? ==> samples == n
    {
      if n < 0 {
        return Err(CountNegative);
      }
      samples := n;
      return Ok(());
    }

    method SetNames(message: seq<Byte>)
      modifies this`network, this`station, this`channel, this`location
      ensures network == CopyString(CString(message, 39), NETWORK_LENGTH)
      ensures station == CopyString(CString(message, 32), STATION_LENGTH)
      ensures channel == CopyString(CString(message, 48), CHANNEL_LENGTH)
      ensures location == CopyString(CString(message, 52), LOCATION_LENGTH)
    {
      network := CopyString(CString(message, 39), NETWORK_LENGTH);
      station := CopyString(CString(message, 32), STATION_LENGTH);
      channel := CopyString(CString(message, 48), CHANNEL_LENGTH);
      location := CopyString(CString(message, 52), LOCATION_LENGTH);
    }

    /** The numbers of the header, read in one byte order. */
    method SetNumbers(message: seq<Byte>, swap: bool, double: nat -> real) returns (r: Result<(), WireError>)
      requires |message| >= HEADER_LENGTH && samples == 0
      modifies this`pinNumber, this`startTime, this`endTime, this`samplingRate, this`quality, this`samples
      ensures
        var n, rate := DeclaredCount(message, swap), double(UnpackBits(message[24..32], swap));
        r == if rate <= 0.0 then Err(RateNotPositive) else if n < 0 then Err(CountNegative) else Ok(())
      ensures r.Ok? ==>
        && pinNumber == UnpackInt(message[0..4], swap) && samples == DeclaredCount(message, swap)
        && startTime == endTime == double(UnpackBits(message[8..16], swap))
        && samplingRate == double(UnpackBits(message[24..32], swap))
        && quality == UnpackInt(message[60..62], swap)
    {
      pinNumber := UnpackInt(message[0..4], swap);
      SetStartTime(double(UnpackBits(message[8..16], swap)));
      r := SetSamplingRate(double(UnpackBits(message[24..32], swap)));
      if r.Err? {
        return;
      }
      quality := UnpackInt(message[60..62], swap);
      r := SetNumberOfSamples(UnpackInt(message[4..8], swap));
    }
  }

  /** Copies the samples out of the message: a plain copy in the host's order, the indexed loop otherwise. */
  method UnpackPayload(data: seq<Byte>, n: nat, f: Format) returns (p: Payload)
    requires n * f.width <= |data|
    requires f.width in {2, 4, 8}
    requires f.floating ==> f.width == 4
    ensures p == PayloadOf(data, n, f)
  {
    if f.floating {
      if f.swap {
        var words := UnpackWordArray(data, n, 4, true);
        return Singles(words[..]);
      }
      return Singles(UnpackWords(data, n, 4, false));
    }
    Widths();
    UnpackedFit(data, n, f.width, f.swap);
    var xs := UnpackInts(data, n, f.width, false);
    if f.swap {
      var ints := UnpackIntArray(data, n, f.width, true);
      xs := ints[..];
    }
    match f.width {
      case 2 => return Shorts(xs);
      case 4 => return Integers(xs);
      case _ => return Longs(xs);
    }
  }

  method UnpackHeader(message: seq<Byte>, f: Format, double: nat -> real)
    returns (trace: TraceBuf2, error: Option<WireError>)
    requires LongEnough(message) && FormatOf(message) == Ok(f)
    ensures fresh(trace)
    ensures
      match DecodeAs(message, f, double)
      case Ok(t) => error.None? && trace.samples == t.samples && trace.Value() == t.(payload := NoPayload)
      case Err(e) => error == Some(e)
  {
    assert |message| >= HEADER_LENGTH;
    hide LongEnough, FormatOf, PayloadOf, DeclaredCount, UnpackInt, UnpackBits, CString, CopyString;
    trace := new TraceBuf2();
    trace.SetNames(message);
    var r := trace.SetNumbers(message, f.swap, double);
    if r.Err? {
      return trace, Some(r.error);
    }
    if f.floating && f.width != 4 {
      return trace, Some(FloatWidth);
    }
    return trace, None;
  }

  method UnpackEarthwormMessage(message: seq<Byte>, double: nat -> real)
    returns (trace: TraceBuf2, error: Option<WireError>)
    requires LongEnough(message)
    ensures fresh(trace)
    ensures
      match Decode(message, double)
      case Ok(t) => error.None? && trace.Value() == t && trace.OnlyTaggedData()
      case Err(e) => error == Some(e)
  {
    hide PayloadOf, UnpackInt, UnpackBits, CString, CopyString;
    var format := FormatOf(message);
    if format.Err? {
      trace := new TraceBuf2();
      return trace, Some(format.error);
    }
    trace, error := UnpackHeader(message, format.value, double);
    if error.None? {
      var p := UnpackPayload(message[HEADER_LENGTH..], trace.samples, format.value);
      trace.SetData(p);
    }
  }

  // ---- properties of the decoder ----

  /** After a successful decode the sample count is the length of the one active vector. */
  lemma CountMatchesPayload(message: seq<Byte>, double: nat -> real)
    requires LongEnough(message) && Decode(message, double).Ok?
    ensures
      var t := Decode(message, double).value;
      t.samples == t.payload.Size() && t.rate > 0.0 && !t.payload.NoPayload? && !t.payload.DoublePatterns?
  {
    hide UnpackInts, UnpackWords, CString, CopyString, UnpackBits;
  }

  /**
   * A message is accepted exactly when its width is known and its floats are four bytes wide, its rate is
   * positive and its count is not negative; s and t mark the other byte order, and any unknown letter is
   * read as native integers.
   */
  lemma AcceptedMessages(message: seq<Byte>, double: nat -> real)
    requires LongEnough(message)
    ensures
      var letter, digit := message[57] as char, message[58] as char;
      var swap := letter in {'s', 't'};
      Decode(message, double).Ok? <==>
        && (digit == '4' || (digit in {'2', '8'} && letter !in {'f', 't'}))
        && double(UnpackBits(message[24..32], swap)) > 0.0
        && UnpackInt(message[4..8], swap) >= 0
    ensures
      var letter, digit := message[57] as char, message[58] as char;
      var swap := letter in {'s', 't'};
      Decode(message, double).Err? ==>
        Decode(message, double).error ==
          if digit !in {'2', '4', '8'} then WidthUnknown
          else if digit == '2' && letter in {'f', 't'} then HalfFloat
          else if double(UnpackBits(message[24..32], swap)) <= 0.0 then RateNotPositive
          else if UnpackInt(message[4..8], swap) < 0 then CountNegative else FloatWidth
  {
    hide PayloadOf, UnpackBits, UnpackInt, CString, CopyString;
  }

  /** The signed word in w bytes, each with its own weight. */
  function WordAt(message: seq<Byte>, offset: nat, w: nat, other: bool): int
    requires offset + w <= |message|
  {
    var u := WeighedBytes(message[offset..offset + w], other, w);
    if 2 * u < Power256(w) then u else u - Power256(w)
  }

  /**
   * Which header bytes make which number: pin, count and quality in the order that the format letter names, start
   * and rate as the weighed bytes of theirs.
   */
  lemma HeaderNumbers(message: seq<Byte>, double: nat -> real)
    requires LongEnough(message) && Decode(message, double).Ok?
    ensures
      var t, other := Decode(message, double).value, message[57] as char in {'s', 't'};
      var b4: int, b5: int, b6: int, b7: int := message[4], message[5], message[6], message[7];
      && t.samples == (if other then 0x100_0000 * b4 + 0x1_0000 * b5 + 0x100 * b6 + b7
                       else b4 + 0x100 * b5 + 0x1_0000 * b6 + 0x100_0000 * b7)
      && t.pin == WordAt(message, 0, 4, other) && t.quality == WordAt(message, 60, 2, other)
      && t.start == double(WeighedBytes(message[8..16], other, 8))
      && t.rate == double(WeighedBytes(message[24..32], other, 8))
  {
    var other := message[57] as char in {'s', 't'};
    FourByteWords(message[4..8]);
    WordIsWeighedBytes(message[0..4], other);
    WordIsWeighedBytes(message[60..62], other);
    WordIsWeighedBytes(message[8..16], other);
    WordIsWeighedBytes(message[24..32], other);
    Widths();
    hide PayloadOf, UnpackBits, UnpackInt, CString, CopyString, WeighedBytes, Power256;
  }

  lemma PayloadAt(data: seq<Byte>, n: nat, f: Format, i: nat)
    requires n * f.width <= |data| && i < n
    requires f.width in {2, 4, 8}
    requires f.floating ==> f.width == 4
    ensures i * f.width + f.width <= |data|
    ensures
      var p, word := PayloadOf(data, n, f), data[i * f.width..i * f.width + f.width];
      match p
      case Shorts(xs) => f.width == 2 && xs[i] == UnpackInt(word, f.swap)
      case Integers(xs) => f.width == 4 && xs[i] == UnpackInt(word, f.swap)
      case Longs(xs) => f.width == 8 && xs[i] == UnpackInt(word, f.swap)
      case Singles(xs) => f.width == 4 && xs[i] == UnpackBits(word, f.swap)
      case _ => false
  {
    ElementsInOrder(data, n, f.width, f.swap, i);
    hide UnpackInts, UnpackWords, UnpackInt, UnpackBits;
  }

  /** Sample i lies behind the 64 bytes of the header and the i samples before it. */
  lemma SampleBytes(message: seq<Byte>, double: nat -> real, i: nat)
    requires LongEnough(message) && Decode(message, double).Ok? && i < Decode(message, double).value.samples
    ensures
      var other, size := message[57] as char in {'s', 't'}, |message|;
      match Decode(message, double).value.payload
      case Shorts(xs) => i < |xs| && 66 + 2 * i <= size && xs[i] == WordAt(message, 64 + 2 * i, 2, other)
      case Integers(xs) => i < |xs| && 68 + 4 * i <= size && xs[i] == WordAt(message, 64 + 4 * i, 4, other)
      case Longs(xs) => i < |xs| && 72 + 8 * i <= size && xs[i] == WordAt(message, 64 + 8 * i, 8, other)
      case Singles(xs) =>
        i < |xs| && 68 + 4 * i <= size && xs[i] == WeighedBytes(message[64 + 4 * i..68 + 4 * i], other, 4)
      case _ => false
  {
    hide UnpackBits, UnpackInt, CString, CopyString, WeighedBytes, Power256, PayloadOf;
    var f, t := FormatOf(message).value, Decode(message, double).value;
    CountMatchesPayload(message, double);
    var data, w := message[64..], f.width;
    PayloadAt(data, t.samples, f, i);
    var at := i * w;
    assert data[at..at + w] == message[64 + at..64 + at + w];
    WordIsWeighedBytes(message[64 + at..64 + at + w], f.swap);
    hide DecodeAs, FormatOf;
  }

  /** A text runs to the first NUL of its field, or fills it. */
  lemma {:induction false} TextEndsAtNul(field: seq<Byte>)
    ensures
      var text := CString(field, 0);
      && |text| <= |field| && (|text| < |field| ==> field[|text|] == 0)
      && forall i :: 0 <= i < |text| ==> text[i] as int == field[i] && field[i] != 0
    decreases |field|
  {
    if field != [] && field[0] != 0 {
      TextEndsAtNul(field[1..]);
      CStringShift(field, 1);
      var text, rest := CString(field, 0), CString(field[1..], 0);
      assert text == [field[0] as char] + rest;
      forall i | 0 <= i < |text| ensures text[i] as int == field[i] && field[i] != 0 {
        if i > 0 {
          assert text[i] == rest[i - 1] && field[i] == field[1..][i - 1];
        }
      }
    }
  }

  /** Eight-byte floats are always refused, so no decoded message ever holds doubles. */
  lemma DoublesAreRefused(message: seq<Byte>, double: nat -> real)
    requires LongEnough(message)
    requires message[57] as char in {'f', 't'} && message[58] as char == '8'
    ensures Decode(message, double).Err?
  {
    hide PayloadOf;
  }

  /** The decoded end time is the start time: right exactly when there is at most one sample. */
  lemma DecodedEndTimeIsStale(message: seq<Byte>, double: nat -> real)
    requires LongEnough(message) && Decode(message, double).Ok?
    ensures
      var t := Decode(message, double).value;
      && t.end == t.start
      && (t.samples > 0 ==> (t.end == t.start + (t.samples - 1) as real / t.rate <==> t.samples == 1))
  {
    CountMatchesPayload(message, double);
    var t := Decode(message, double).value;
    hide PayloadOf, CString, CopyString, UnpackInt, UnpackBits, FormatOf, DeclaredCount;
    var a, q := (t.samples - 1) as real, (t.samples - 1) as real / t.rate;
    assert q * t.rate == a;
    assert q == 0.0 <==> a == 0.0;
  }

  /** Cutting the text to a field's length reads no byte beyond the field, wherever the NUL is. */
  lemma {:induction false} CutTextStaysInField(message: seq<Byte>, offset: nat, length: nat)
    requires offset + length <= |message|
    ensures CopyString(CString(message, offset), length) == CString(message[offset..offset + length], 0)
    decreases length
  {
    var field := message[offset..offset + length];
    if length > 0 && message[offset] != 0 {
      CutTextStaysInField(message, offset + 1, length - 1);
      assert message[offset + 1..offset + length] == field[1..];
      CStringShift(field, 1);
      var tail := CString(message, offset + 1);
      assert CString(message, offset) == [message[offset] as char] + tail;
      assert CopyString(CString(message, offset), length) == [message[offset] as char] + CopyString(tail, length - 1);
    }
  }

  lemma {:induction false} CStringShift(message: seq<Byte>, offset: nat)
    requires offset <= |message|
    ensures CString(message, offset) == CString(message[offset..], 0)
    decreases |message| - offset
  {
    if offset < |message| && message[offset] != 0 {
      CStringShift(message, offset + 1);
      CStringShift(message[offset..], 1);
      assert message[offset..][1..] == message[offset + 1..];
    }
  }

  /** The four names depend on their own header bytes only. */
  lemma HeaderFieldsDoNotBleed(a: seq<Byte>, b: seq<Byte>, double: nat -> real)
    requires LongEnough(a) && LongEnough(b) && Decode(a, double).Ok? && Decode(b, double).Ok?
    ensures
      var s, t := Decode(a, double).value, Decode(b, double).value;
      && (a[32..39] == b[32..39] ==> s.station == t.station)
      && (a[39..48] == b[39..48] ==> s.network == t.network)
      && (a[48..52] == b[48..52] ==> s.channel == t.channel)
      && (a[52..55] == b[52..55] ==> s.location == t.location)
  {
    hide PayloadOf, UnpackInt, UnpackBits, CString, CopyString;
    NameFields(a);
    NameFields(b);
    assert a[32..39][..6] == a[32..38] && b[32..39][..6] == b[32..38];
    assert a[39..48][..8] == a[39..47] && b[39..48][..8] == b[39..47];
    assert a[48..52][..3] == a[48..51] && b[48..52][..3] == b[48..51];
    assert a[52..55][..2] == a[52..54] && b[52..55][..2] == b[52..54];
  }

  lemma NameFields(message: seq<Byte>)
    requires |message| >= HEADER_LENGTH
    ensures CopyString(CString(message, 32), STATION_LENGTH) == CString(message[32..38], 0)
    ensures CopyString(CString(message, 39), NETWORK_LENGTH) == CString(message[39..47], 0)
    ensures CopyString(CString(message, 48), CHANNEL_LENGTH) == CString(message[48..51], 0)
    ensures CopyString(CString(message, 52), LOCATION_LENGTH) == CString(message[52..54], 0)
  {
    hide CString, CopyString;
    CutTextStaysInField(message, 32, STATION_LENGTH);
    CutTextStaysInField(message, 39, NETWORK_LENGTH);
    CutTextStaysInField(message, 48, CHANNEL_LENGTH);
    CutTextStaysInField(message, 52, LOCATION_LENGTH);
  }
}
