/** From a message on the wire to a packet: the byte order it was written in leaves no trace. */
module Wire {
  import opened Bytes
  import opened Common
  import opened Packets
  import opened Samples
  import opened StreamNames
  import opened TraceBuf2

  /** The header values and samples a data source puts on the wire. Doubles are bit patterns. */
  datatype Message = Message(
    pin: int, start: nat, end: nat, rate: nat, quality: int,
    network: string, station: string, channel: string, location: string, payload: Payload)

  datatype Order = LittleEndian | BigEndian {
    /** A little-endian host swaps the other order. */
    predicate Swap() {
      BigEndian?
    }
  }

  predicate IsName(name: string, length: nat) {
    |name| <= length && forall i :: 0 <= i < |name| ==> 0 < name[i] as int < 256
  }

  predicate FitsFour(bits: nat) {
    bits < Power256(4)
  }

  /** What the formats i2, i4, i8, f4 and s2, s4, s8, t4 can carry. */
  predicate Encodable(m: Message) {
    && Fits(m.pin, 4) && Fits(m.quality, 2)
    && m.start < Power256(8) && m.end < Power256(8) && m.rate < Power256(8)
    && IsName(m.station, STATION_LENGTH) && IsName(m.network, NETWORK_LENGTH)
    && IsName(m.channel, CHANNEL_LENGTH) && IsName(m.location, LOCATION_LENGTH)
    && !m.payload.DoublePatterns? && !m.payload.NoPayload?
    && Fits(m.payload.Size(), 4)
    && (m.payload.Singles? ==> forall i :: 0 <= i < |m.payload.f32| ==> FitsFour(m.payload.f32[i]))
  }

  function ByteOf(c: char): Byte {
    if c as int < 256 then c as int else 0
  }

  /** A name padded with NULs to the width of its field. */
  function Field(name: string, width: nat): seq<Byte> {
    seq(width, i requires 0 <= i => if i < |name| then ByteOf(name[i]) else 0)
  }

  function FormatLetters(p: Payload, order: Order): string
    requires !p.DoublePatterns? && !p.NoPayload?
  {
    var integer, single := if order.Swap() then "s" else "i", if order.Swap() then "t" else "f";
    match p
    case Shorts(_) => integer + "2"
    case Integers(_) => integer + "4"
    case Longs(_) => integer + "8"
    case Singles(_) => single + "4"
  }

  function PayloadWidth(p: Payload): nat {
    match p
    case Shorts(_) => 2
    case Integers(_) => 4
    case Longs(_) => 8
    case Singles(_) => 4
    case _ => 0
  }

  lemma IntegersFit(p: Payload)
    ensures p.Shorts? ==> forall i :: 0 <= i < |p.i16| ==> Fits(p.i16[i], 2)
    ensures p.Integers? ==> forall i :: 0 <= i < |p.i32| ==> Fits(p.i32[i], 4)
    ensures p.Longs? ==> forall i :: 0 <= i < |p.i64| ==> Fits(p.i64[i], 8)
  {
    Widths();
    hide Power256;
  }

  function EncodeNumbers(m: Message, swap: bool): (bs: seq<Byte>)
    requires Encodable(m)
    ensures |bs| == 32
  {
    PackInt(m.pin, 4, swap) + PackInt(m.payload.Size(), 4, swap) + PackBits(m.start, 8, swap)
      + PackBits(m.end, 8, swap) + PackBits(m.rate, 8, swap)
  }

  function EncodeNames(m: Message): (bs: seq<Byte>)
    ensures |bs| == 23
  {
    Field(m.station, 7) + Field(m.network, 9) + Field(m.channel, 4) + Field(m.location, 3)
  }

  function EncodeFormat(m: Message, order: Order): (bs: seq<Byte>)
    requires Encodable(m)
    ensures |bs| == 9
  {
    Field("20", 2) + Field(FormatLetters(m.payload, order), 3) + PackInt(m.quality, 2, order.Swap()) + [0, 0]
  }

  function EncodePayload(p: Payload, swap: bool): (bs: seq<Byte>)
    ensures |bs| == p.Size() * PayloadWidth(p)
  {
    IntegersFit(p);
    match p
    case Shorts(xs) => PackInts(xs, 2, swap)
    case Integers(xs) => PackInts(xs, 4, swap)
    case Longs(xs) => PackInts(xs, 8, swap)
    case Singles(xs) => PackWords(xs, 4, swap)
    case _ => []
  }

  function Encode(m: Message, order: Order): seq<Byte>
    requires Encodable(m)
  {
    EncodeNumbers(m, order.Swap()) + EncodeNames(m) + EncodeFormat(m, order) + EncodePayload(m.payload, order.Swap())
  }

  /** What any reader should make of the message. */
  function Meaning(m: Message, double: nat -> real): Trace {
    Trace(m.pin, m.payload.Size(), double(m.start), double(m.start), double(m.rate), m.quality,
          m.network, m.station, m.channel, m.location, m.payload)
  }

  // ---- the layout of an encoded message ----

  lemma NumbersAt(m: Message, swap: bool)
    requires Encodable(m)
    ensures
      var a := EncodeNumbers(m, swap);
      && a[0..4] == PackInt(m.pin, 4, swap) && a[4..8] == PackInt(m.payload.Size(), 4, swap)
      && a[8..16] == PackBits(m.start, 8, swap) && a[24..32] == PackBits(m.rate, 8, swap)
  {
    hide PackInt, PackBits, Encodable, Fits;
  }

  lemma NamesAt(m: Message)
    ensures
      var b := EncodeNames(m);
      && b[0..7] == Field(m.station, 7) && b[7..16] == Field(m.network, 9)
      && b[16..20] == Field(m.channel, 4) && b[20..23] == Field(m.location, 3)
  {
    hide Field;
    FieldSizes(m);
  }

  lemma FieldSizes(m: Message)
    ensures |Field(m.station, 7)| == 7 && |Field(m.network, 9)| == 9
    ensures |Field(m.channel, 4)| == 4 && |Field(m.location, 3)| == 3
  {
  }

  lemma FormatAt(m: Message, order: Order)
    requires Encodable(m)
    ensures
      var c := EncodeFormat(m, order);
      var letters := FormatLetters(m.payload, order);
      && c[2] as char == letters[0] && c[3] as char == letters[1]
      && c[5..7] == PackInt(m.quality, 2, order.Swap())
  {
    hide PackInt, Encodable, Fits;
  }

  /** Every part of the message lies at its documented offset. */
  lemma Layout(a: seq<Byte>, b: seq<Byte>, c: seq<Byte>, d: seq<Byte>)
    requires |a| == 32 && |b| == 23 && |c| == 9
    ensures
      var m := a + b + c + d;
      && |m| == HEADER_LENGTH + |d|
      && m[0..4] == a[0..4] && m[4..8] == a[4..8] && m[8..16] == a[8..16] && m[24..32] == a[24..32]
      && m[32..39] == b[0..7] && m[39..48] == b[7..16] && m[48..52] == b[16..20] && m[52..55] == b[20..23]
      && m[57] == c[2] && m[58] == c[3] && m[60..62] == c[5..7]
      && m[HEADER_LENGTH..] == d
  {
  }

  /** A padded name reads back as itself. */
  lemma {:induction false} NameReadsBack(name: string, width: nat)
    requires IsName(name, width)
    ensures CString(Field(name, width), 0) == name
    decreases width
  {
    var field := Field(name, width);
    if name != "" {
      assert field[1..] == Field(name[1..], width - 1);
      assert field[0] as char == name[0];
      NameReadsBack(name[1..], width - 1);
      CStringShift(field, 1);
      assert name == [name[0]] + name[1..];
    }
  }

  lemma FieldPrefix(name: string, width: nat)
    requires width > 0
    ensures Field(name, width)[..width - 1] == Field(name, width - 1)
  {
  }

  lemma NameAt(message: seq<Byte>, offset: nat, width: nat, name: string)
    requires 0 < width && offset + width <= |message|
    requires message[offset..offset + width] == Field(name, width) && IsName(name, width - 1)
    ensures CString(message[offset..offset + width - 1], 0) == name
  {
    FieldPrefix(name, width);
    NameReadsBack(name, width - 1);
    hide Field, CString, IsName;
    assert message[offset..offset + width][..width - 1] == message[offset..offset + width - 1];
  }

  lemma NamesReadBack(m: Message, message: seq<Byte>)
    requires Encodable(m) && |message| >= HEADER_LENGTH
    requires message[32..39] == Field(m.station, 7) && message[39..48] == Field(m.network, 9)
    requires message[48..52] == Field(m.channel, 4) && message[52..55] == Field(m.location, 3)
    ensures CopyString(CString(message, 32), STATION_LENGTH) == m.station
    ensures CopyString(CString(message, 39), NETWORK_LENGTH) == m.network
    ensures CopyString(CString(message, 48), CHANNEL_LENGTH) == m.channel
    ensures CopyString(CString(message, 52), LOCATION_LENGTH) == m.location
  {
    hide Field, CString, CopyString, IsName;
    NameFields(message);
    NameAt(message, 32, 7, m.station);
    NameAt(message, 39, 9, m.network);
    NameAt(message, 48, 4, m.channel);
    NameAt(message, 52, 3, m.location);
  }

  lemma PayloadReadsBack(p: Payload, swap: bool, f: Format)
    requires !p.DoublePatterns? && !p.NoPayload?
    requires p.Singles? ==> forall i :: 0 <= i < |p.f32| ==> FitsFour(p.f32[i])
    requires f == Format(p.Singles?, swap, PayloadWidth(p))
    ensures PayloadOf(EncodePayload(p, swap), p.Size(), f) == p
  {
    IntegersFit(p);
    hide Fits, UnpackInts, UnpackWords, PackInts, PackWords;
    match p
    case Shorts(xs) => UnpackPackInts(xs, 2, swap);
    case Integers(xs) => UnpackPackInts(xs, 4, swap);
    case Longs(xs) => UnpackPackInts(xs, 8, swap);
    case Singles(xs) => UnpackPackWords(xs, 4, swap);
  }

  lemma FormatReadsBack(m: Message, order: Order, message: seq<Byte>)
    requires Encodable(m) && |message| >= HEADER_LENGTH
    requires message[57] as char == FormatLetters(m.payload, order)[0]
    requires message[58] as char == FormatLetters(m.payload, order)[1]
    ensures FormatOf(message) == Ok(Format(m.payload.Singles?, order.Swap(), PayloadWidth(m.payload)))
  {
    hide Fits, Power256;
  }

  /** Decoding an encoded message gives its meaning, in either byte order. */
  lemma DecodeEncode(m: Message, order: Order, double: nat -> real)
    requires Encodable(m) && double(m.rate) > 0.0
    ensures LongEnough(Encode(m, order))
    ensures Decode(Encode(m, order), double) == Ok(Meaning(m, double))
  {
    var swap := order.Swap();
    var a, b, c, d := EncodeNumbers(m, swap), EncodeNames(m), EncodeFormat(m, order), EncodePayload(m.payload, swap);
    var message := a + b + c + d;
    Layout(a, b, c, d);
    NumbersAt(m, swap);
    NamesAt(m);
    FormatAt(m, order);
    FormatReadsBack(m, order, message);
    NamesReadBack(m, message);
    UnpackPack(m.pin, 4, swap);
    UnpackPack(m.payload.Size(), 4, swap);
    UnpackPack(m.quality, 2, swap);
    UnpackPackBits(m.start, 8, swap);
    UnpackPackBits(m.rate, 8, swap);
    PayloadReadsBack(m.payload, swap, Format(m.payload.Singles?, swap, PayloadWidth(m.payload)));
    hide EncodeNumbers, EncodeNames, EncodeFormat, EncodePayload, FormatOf, PayloadOf, Fits, Power256, CString,
      CopyString, UnpackInt, UnpackBits, PackInt, PackBits, Field, FormatLetters;
  }

  /** The declared count lies in bytes 4 to 7, most significant byte first in the big-endian order only. */
  lemma EncodedCount(m: Message, order: Order, double: nat -> real)
    requires Encodable(m) && double(m.rate) > 0.0
    ensures |Encode(m, order)| >= 64
    ensures
      var e := Encode(m, order);
      var b4: int, b5: int, b6: int, b7: int := e[4], e[5], e[6], e[7];
      && (e[57] as char in {'s', 't'} <==> order == BigEndian)
      && m.payload.Size()
           == if order == BigEndian then 0x100_0000 * b4 + 0x1_0000 * b5 + 0x100 * b6 + b7
              else b4 + 0x100 * b5 + 0x1_0000 * b6 + 0x100_0000 * b7
  {
    DecodeEncode(m, order, double);
    HeaderNumbers(Encode(m, order), double);
    EncodedLetter(m, order);
    hide *;
  }

  lemma EncodedLetter(m: Message, order: Order)
    requires Encodable(m)
    ensures |Encode(m, order)| >= 64 && (Encode(m, order)[57] as char in {'s', 't'} <==> order == BigEndian)
  {
    var swap := order.Swap();
    Layout(EncodeNumbers(m, swap), EncodeNames(m), EncodeFormat(m, order), EncodePayload(m.payload, swap));
    FormatAt(m, order);
    hide EncodeNumbers, EncodeNames, EncodeFormat, EncodePayload, Encodable;
  }

  // ---- the packet ----

  /** The values that 32-bit and 64-bit floating-point patterns stand for. */
  datatype FloatValues = FloatValues(single: nat -> real, double: nat -> real)

  datatype MakeError = BadName(name: NameError) | BadPacket(error: PacketError) | UnhandledPrecision

  function SinglesToReals(xs: seq<nat>, value: nat -> real): seq<real> {
    seq(|xs|, i requires 0 <= i < |xs| => value(xs[i]))
  }

  /** A vector brought to the declared sample count: what is missing is zero. */
  function Resized<T>(xs: seq<T>, n: int, zero: T): (ys: seq<T>)
    requires n < 1 || |xs| <= n
    ensures |ys| == Max(n, 0)
    ensures forall i :: 0 <= i < |ys| ==> ys[i] == if i < |xs| then xs[i] else zero
  {
    if n < 1 then [] else xs + seq(n - |xs|, _ => zero)
  }

  /** The copy out of the trace writes past its result if there are more samples than declared. */
  predicate CopyFits(t: Trace) {
    t.samples < 1 || t.payload.Size() <= t.samples
  }

  /** The samples a packet takes over, as many as declared; 16-bit integers are promoted. */
  function SamplesOf(p: Payload, n: int, f: FloatValues): Samples
    requires n < 1 || p.Size() <= n
  {
    match p
    case Shorts(xs) => Ints32(Resized<Int32>(xs, n, 0))
    case Integers(xs) => Ints32(Resized<Int32>(xs, n, 0))
    case Longs(xs) => Ints64(Resized<Int64>(xs, n, 0))
    case Singles(xs) => Floats(Resized(SinglesToReals(xs, f.single), n, 0.0))
    case DoublePatterns(xs) => Doubles(Resized(SinglesToReals(xs, f.double), n, 0.0))
    case NoPayload => NoSamples
  }

  function IdentifierOf(t: Trace): Result<Identifier, NameError> {
    if IsBlank(ConvertString(t.network)) then Err(NetworkEmpty)
    else if IsBlank(ConvertString(t.station)) then Err(StationEmpty)
    else if IsBlank(ConvertString(t.channel)) then Err(ChannelEmpty)
    else Ok(Identifier(ConvertString(t.network), ConvertString(t.station), ConvertString(t.channel),
                       LocationOf(if t.location != "" then t.location else NO_LOCATION)))
  }

  /** The packet made from a trace. Its end time is derived anew. */
  function PacketOf(t: Trace, f: FloatValues): Result<PacketValue, MakeError>
    requires CopyFits(t)
  {
    match IdentifierOf(t)
    case Err(e) => Err(BadName(e))
    case Ok(id) =>
      if !(t.rate > 0.0) then Err(BadPacket(RateNotSet))
      else if t.payload.NoPayload? then Err(UnhandledPrecision)
      else
        var start := Round(t.start * MICROSECONDS_PER_SECOND as real);
        var samples := SamplesOf(t.payload, t.samples, f);
        var kept := if samples.Size() == 0 then NoSamples else samples;
        Ok(PacketValue(Some(id), start, EndTime(start, t.rate, kept.Size()), t.rate, kept))
  }

  /** The parts are set in this order, so the first blank one is reported; a missing rate only after all names. */
  lemma RefusedTraces(t: Trace, f: FloatValues)
    requires CopyFits(t)
    ensures
      match PacketOf(t, f)
      case Ok(p) => !IsBlank(t.network) && !IsBlank(t.station) && !IsBlank(t.channel) && t.rate > 0.0
      case Err(e) =>
        e == if IsBlank(t.network) then BadName(NetworkEmpty)
             else if IsBlank(t.station) then BadName(NameError.StationEmpty)
             else if IsBlank(t.channel) then BadName(ChannelEmpty)
             else if t.rate <= 0.0 then BadPacket(RateNotSet) else UnhandledPrecision
  {
    BlankCodes(t.network);
    BlankCodes(t.station);
    BlankCodes(t.channel);
    hide ConvertString, IsBlank, EndTime, Round, SamplesOf;
  }

  method MakeIdentifier(t: Trace) returns (r: Result<Identifier, NameError>)
    ensures r == IdentifierOf(t)
    ensures r.Ok? ==> r.value.Complete() && r.value.Normalised()
  {
    hide ConvertString, IsBlank;
    var identifier := new StreamIdentifier();
    var outcome := identifier.SetNetwork(t.network);
    if outcome.Err? {
      return Err(outcome.error);
    }
    outcome := identifier.SetStation(t.station);
    if outcome.Err? {
      return Err(outcome.error);
    }
    outcome := identifier.SetChannel(t.channel);
    if outcome.Err? {
      return Err(outcome.error);
    }
    if t.location != "" {
      identifier.SetLocationCode(t.location);
    } else {
      identifier.SetLocationCode("--");
    }
    return Ok(Identifier(identifier.network, identifier.station, identifier.channel, identifier.location));
  }

  /** Builds the packet through its setters, as the constructor does. */
  method MakePacket(t: Trace, f: FloatValues) returns (packet: Packet, error: Option<MakeError>)
    requires CopyFits(t)
    ensures fresh(packet)
    ensures
      match PacketOf(t, f)
      case Ok(p) => error.None? && packet.Valid() && packet.Value() == p
      case Err(e) => error == Some(e)
  {
    hide ConvertString, IsBlank, EndTime, Round, IdentifierOf;
    packet := new Packet();
    var id := MakeIdentifier(t);
    if id.Err? {
      return packet, Some(BadName(id.error));
    }
    var r := packet.SetStreamIdentifier(id.value);
    if !(t.rate > 0.0) {
      return packet, Some(BadPacket(RateNotSet));
    }
    r := packet.SetSamplingRate(t.rate);
    packet.SetStartTime(t.start);
    if t.payload.NoPayload? {
      return packet, Some(UnhandledPrecision);
    }
    packet.SetData(SamplesOf(t.payload, t.samples, f));
    return packet, None;
  }

  /** Reading a message off the ring. */
  datatype Received = Received(packet: Result<PacketValue, MakeError>)

  function Receive(message: seq<Byte>, f: FloatValues): Option<Received>
    requires LongEnough(message)
  {
    match Decode(message, f.double)
    case Err(_) => None
    case Ok(t) =>
      CountMatchesPayload(message, f.double);
      Some(Received(PacketOf(t, f)))
  }

  /** Integers are taken over as they are, float patterns by their values, all in the same order. */
  ghost predicate SampleForSample(p: Payload, data: Samples, f: FloatValues) {
    match p
    case Shorts(xs) => data == Ints32(xs)
    case Integers(xs) => data == Ints32(xs)
    case Longs(xs) => data == Ints64(xs)
    case Singles(xs) =>
      data.Floats? && |data.f32| == |xs| && forall i :: 0 <= i < |xs| ==> data.f32[i] == f.single(xs[i])
    case DoublePatterns(xs) =>
      data.Doubles? && |data.f64| == |xs| && forall i :: 0 <= i < |xs| ==> data.f64[i] == f.double(xs[i])
    case NoPayload => data == NoSamples
  }

  /**
   * Byte order does not matter: the same values written little-endian or big-endian are received as the same
   * packet, or refused for the same reason, and so give the same sums.
   */
  lemma ByteOrderDoesNotMatter(m: Message, f: FloatValues)
    requires Encodable(m) && f.double(m.rate) > 0.0
    ensures LongEnough(Encode(m, LittleEndian)) && LongEnough(Encode(m, BigEndian))
    ensures Receive(Encode(m, LittleEndian), f) == Receive(Encode(m, BigEndian), f)
         == Some(Received(PacketOf(Meaning(m, f.double), f)))
  {
    hide Encode, Decode, Meaning, PacketOf, Encodable, LongEnough;
    DecodeEncode(m, LittleEndian, f.double);
    DecodeEncode(m, BigEndian, f.double);
  }

  /** Any packet received off the wire can enter the pipeline, and no 16-bit sample changes on promotion. */
  lemma ReceivedPacketsAreBuilt(message: seq<Byte>, f: FloatValues)
    requires LongEnough(message)
    requires Receive(message, f).Some? && Receive(message, f).value.packet.Ok?
    ensures
      var t, p := Decode(message, f.double).value, Receive(message, f).value.packet.value;
      && p.Valid() && p.id.Some? && p.id.value.Complete() && p.id.value.Normalised()
      && p.samples.Size() == t.samples && p.rate == t.rate > 0.0
      && (t.samples > 0 ==> p.samples == Sent(t.payload, f) && SampleForSample(t.payload, p.samples, f))
      && p.end == EndTime(p.start, p.rate, t.samples)
  {
    var t := Decode(message, f.double).value;
    CountMatchesPayload(message, f.double);
    IdentifierIsComplete(t);
    NothingResized(t.payload, f);
    hide Decode, EndTime, Round, IdentifierOf, SamplesOf, Sent;
  }

  lemma IdentifierIsComplete(t: Trace)
    requires IdentifierOf(t).Ok?
    ensures IdentifierOf(t).value.Complete() && IdentifierOf(t).value.Normalised()
  {
    NotBlankNotEmpty(ConvertString(t.network));
    ConvertStringIs(t.network);
    ConvertStringIs(t.station);
    ConvertStringIs(t.channel);
    var code := if t.location != "" then t.location else NO_LOCATION;
    ConvertStringIs(code);
    hide ConvertString;
  }

  lemma NotBlankNotEmpty(s: string)
    ensures !IsBlank(s) ==> s != ""
  {
  }

  /** An upper-case code without white space, as stations are named. */
  ghost predicate IsCode(s: string) {
    s != "" && IsUpper(s) && forall i :: 0 <= i < |s| ==> !IsSpace(s[i])
  }

  lemma CodeUnchanged(s: string)
    requires IsCode(s)
    ensures ConvertString(s) == s && !IsBlank(s)
  {
    CleanCodeUnchanged(s);
    assert !IsSpace(s[0]);
  }

  lemma DashesUnchanged()
    ensures IsCode(NO_LOCATION)
  {
  }

  ghost predicate HasCleanCodes(m: Message) {
    && IsCode(m.network) && IsCode(m.station) && IsCode(m.channel)
    && (m.location == "" || IsCode(m.location))
  }

  function SentIdentifier(m: Message): Identifier {
    Identifier(m.network, m.station, m.channel, if m.location == "" then NO_LOCATION else m.location)
  }

  lemma CleanIdentifier(m: Message, double: nat -> real)
    requires HasCleanCodes(m)
    ensures IdentifierOf(Meaning(m, double)) == Ok(SentIdentifier(m))
  {
    CodeUnchanged(m.network);
    CodeUnchanged(m.station);
    CodeUnchanged(m.channel);
    DashesUnchanged();
    CodeUnchanged(SentIdentifier(m).location);
    assert NO_LOCATION != "";
    hide ConvertString, IsBlank, IsCode;
  }

  /** The samples as sent, without the 16-bit width. */
  function Sent(p: Payload, f: FloatValues): Samples {
    match p
    case Shorts(xs) => Ints32(xs)
    case Integers(xs) => Ints32(xs)
    case Longs(xs) => Ints64(xs)
    case Singles(xs) => Floats(SinglesToReals(xs, f.single))
    case DoublePatterns(xs) => Doubles(SinglesToReals(xs, f.double))
    case NoPayload => NoSamples
  }

  function SentPacket(m: Message, f: FloatValues): PacketValue {
    var start, rate := Round(f.double(m.start) * MICROSECONDS_PER_SECOND as real), f.double(m.rate);
    PacketValue(Some(SentIdentifier(m)), start, EndTime(start, rate, m.payload.Size()), rate, Sent(m.payload, f))
  }

  /** A declared count that is right leaves the samples as they were sent. */
  lemma NothingResized(p: Payload, f: FloatValues)
    ensures p.Size() > 0 ==> SamplesOf(p, p.Size(), f) == Sent(p, f)
    ensures SamplesOf(p, p.Size(), f).Size() == p.Size()
  {
  }

  lemma PacketOfMeaning(m: Message, f: FloatValues)
    requires HasCleanCodes(m) && f.double(m.rate) > 0.0 && m.payload.Size() > 0
    ensures PacketOf(Meaning(m, f.double), f) == Ok(SentPacket(m, f))
  {
    NothingResized(m.payload, f);
    hide IdentifierOf, SentIdentifier, HasCleanCodes, EndTime, Round, SamplesOf;
    CleanIdentifier(m, f.double);
  }

  /**
   * From the wire to the stream's key: a message with clean codes and some samples arrives, in either byte
   * order, as a packet with those codes, that rate and those samples, filed under the lower-case joined name.
   */
  lemma CleanMessageArrives(m: Message, order: Order, f: FloatValues)
    requires Encodable(m) && f.double(m.rate) > 0.0 && m.payload.Size() > 0 && HasCleanCodes(m)
    ensures LongEnough(Encode(m, order))
    ensures Receive(Encode(m, order), f) == Some(Received(Ok(SentPacket(m, f))))
    ensures
      var name := m.network + "_" + m.station + "_" + m.channel + "_" + if m.location == "" then "--" else m.location;
      var key := ToKeyName(SentIdentifier(m));
      && key == Lower(name) && |key| == |name|
      && forall i :: 0 <= i < |name| ==>
           key[i] as int == name[i] as int + if 65 <= name[i] as int <= 90 then 32 else 0
  {
    hide Encode, Decode, Encodable, LongEnough, HasCleanCodes, PacketOf, SentPacket, Meaning;
    DecodeEncode(m, order, f.double);
    PacketOfMeaning(m, f);
    var id := SentIdentifier(m);
    KeyIsLowerJoin(id);
    assert id.location != "" by {
      DashesUnchanged();
    }
    assert id.Join('_') == m.network + "_" + m.station + "_" + m.channel + "_" + id.location;
  }
}
