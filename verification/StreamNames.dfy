/** Stream identifiers: normalised codes, the cached dotted name and the metrics key. */
module StreamNames {
  import opened Common

  // The C locale's classification of single bytes.
  predicate IsSpace(c: char) {
    c == ' ' || '\t' <= c <= '\r'
  }

  function ToUpper(c: char): char {
    if 'a' <= c <= 'z' then c - 'a' + 'A' else c
  }

  function ToLower(c: char): char {
    if 'A' <= c <= 'Z' then c - 'A' + 'a' else c
  }

  function Upper(s: string): string {
    seq(|s|, i requires 0 <= i < |s| => ToUpper(s[i]))
  }

  function Lower(s: string): string {
    seq(|s|, i requires 0 <= i < |s| => ToLower(s[i]))
  }

  predicate IsBlank(s: string) {
    forall i :: 0 <= i < |s| ==> IsSpace(s[i])
  }

  function WithoutSpaces(s: string): string {
    if s == [] then [] else WithoutSpaces(ButLast(s)) + if Last(s) == ' ' then [] else [Last(s)]
  }

  function ConvertString(s: string): string {
    Upper(WithoutSpaces(s))
  }

  const NO_LOCATION := "--"

  datatype Identifier = Identifier(network: string, station: string, channel: string, location: string) {
    predicate Complete() {
      network != "" && station != "" && channel != "" && location != ""
    }

    /** The four parts joined by one separator. */
    function Join(separator: char): string {
      network + [separator] + station + [separator] + channel + [separator] + location
    }

    predicate Avoids(separator: char) {
      separator !in network && separator !in station && separator !in channel && separator !in location
    }

    /**
     * A separator inside a code lets the joined name be cut elsewhere, except as the first letter of the
     * network, as the last of the location, or as the whole of the station or channel.
     */
    predicate Ambiguous(separator: char) {
      || (exists i :: 0 < i < |network| && network[i] == separator)
      || (separator in station && |station| > 1)
      || (separator in channel && |channel| > 1)
      || (exists i :: 0 <= i < |location| - 1 && location[i] == separator)
    }

    /** What the setters leave behind: no lower-case letter in any part. */
    predicate Normalised() {
      IsUpper(network) && IsUpper(station) && IsUpper(channel) && IsUpper(location)
    }
  }

  predicate IsUpper(s: string) {
    forall i :: 0 <= i < |s| ==> ToUpper(s[i]) == s[i]
  }

  const UNSET := Identifier("", "", "", "")

  /** The key under which the singleton files a stream. */
  function ToKeyName(id: Identifier): string {
    Lower(id.network + "_" + id.station + "_" + id.channel + if id.location != "" then "_" + id.location else "")
  }

  /** The cached name: empty until every part is set. */
  function CachedName(id: Identifier): string {
    if id.Complete() then id.Join('.') else ""
  }

  // ---- what normalising does ----

  lemma {:induction false} KeepsNonSpace(s: string, i: nat)
    requires i < |s| && s[i] != ' '
    ensures s[i] in WithoutSpaces(s)
  {
    if i < |s| - 1 {
      KeepsNonSpace(ButLast(s), i);
    }
  }

  lemma {:induction false} WithoutSpacesHasNone(s: string)
    ensures ' ' !in WithoutSpaces(s)
    ensures forall c :: c in WithoutSpaces(s) ==> c in s
  {
    if s != [] {
      WithoutSpacesHasNone(ButLast(s));
    }
  }

  /** Converting never leaves a lower-case letter or a space, and empties only a string of spaces. */
  lemma ConvertStringIs(s: string)
    ensures IsUpper(ConvertString(s))
    ensures ' ' !in ConvertString(s)
    ensures ConvertString(s) == "" <==> forall i :: 0 <= i < |s| ==> s[i] == ' '
  {
    WithoutSpacesHasNone(s);
    var w := WithoutSpaces(s);
    if w == "" {
      forall i | 0 <= i < |s| ensures s[i] == ' ' {
        if s[i] != ' ' {
          KeepsNonSpace(s, i);
        }
      }
    } else {
      assert w[0] in w;
    }
  }

  lemma {:induction false} NothingToRemove(s: string)
    requires forall i :: 0 <= i < |s| ==> s[i] != ' '
    ensures WithoutSpaces(s) == s
  {
    if s != [] {
      var rest := ButLast(s);
      NothingToRemove(rest);
      assert WithoutSpaces(s) == rest + [Last(s)];
    }
  }

  /** A code that is already clean is kept as it is. */
  lemma CleanCodeUnchanged(s: string)
    requires IsUpper(s) && forall i :: 0 <= i < |s| ==> s[i] != ' '
    ensures ConvertString(s) == s
  {
    NothingToRemove(s);
  }

  /** Upper case in code points. */
  lemma UpperLetters(s: string)
    ensures |Upper(s)| == |s|
    ensures forall i :: 0 <= i < |s| ==>
      Upper(s)[i] as int == s[i] as int - if 97 <= s[i] as int <= 122 then 32 else 0
  {
  }

  /** Converting works letter by letter: a space goes, a lower-case letter moves down 32 code points, the rest stays. */
  lemma ConvertLetterByLetter(s: string, c: char)
    ensures |ConvertString(s + [c])| == |ConvertString(s)| + if c as int == 32 then 0 else 1
    ensures ConvertString(s) <= ConvertString(s + [c])
    ensures c as int != 32 ==>
      Last(ConvertString(s + [c])) as int == c as int - if 97 <= c as int <= 122 then 32 else 0
  {
    assert ButLast(s + [c]) == s;
  }

  /** White space is blank, tab, line feed, vertical tab, form feed and carriage return. */
  lemma BlankCodes(code: string)
    ensures IsBlank(code) <==> forall i :: 0 <= i < |code| ==> code[i] as int in {9, 10, 11, 12, 13, 32}
    ensures IsBlank(ConvertString(code)) <==> IsBlank(code)
    ensures IsBlank(code) ==> LocationOf(code) == "--"
    ensures !IsBlank(code) ==> LocationOf(code) == ConvertString(code)
  {
    ConvertKeepsBlank(code);
    hide ConvertString;
  }

  lemma {:induction false} ConvertKeepsBlank(code: string)
    ensures IsBlank(ConvertString(code)) <==> IsBlank(code)
  {
    if code != "" {
      var rest := ButLast(code);
      ConvertKeepsBlank(rest);
      ConvertLetterByLetter(rest, Last(code));
      assert code == rest + [Last(code)];
      BlankAppend(rest, Last(code));
      if Last(code) != ' ' {
        var converted := ConvertString(code);
        assert ButLast(converted) == ConvertString(rest);
        BlankAppend(ConvertString(rest), Last(converted));
        assert converted == ConvertString(rest) + [Last(converted)];
      }
    }
  }

  lemma BlankAppend(s: string, c: char)
    ensures IsBlank(s + [c]) <==> IsBlank(s) && IsSpace(c)
  {
    var t := s + [c];
    assert t[|s|] == c;
    if IsBlank(t) {
      forall i | 0 <= i < |s| ensures IsSpace(s[i]) {
        assert t[i] == s[i];
      }
    }
  }

  // ---- keys ----

  /** The key joins the parts that are set with underscores, and moves every capital up 32 code points. */
  lemma KeyLetters(id: Identifier)
    ensures
      var s := id.network + "_" + id.station + "_" + id.channel + if id.location == "" then "" else "_" + id.location;
      && |ToKeyName(id)| == |s|
      && forall i :: 0 <= i < |s| ==>
           ToKeyName(id)[i] as int == s[i] as int + if 65 <= s[i] as int <= 90 then 32 else 0
  {
    var three := id.network + "_" + id.station + "_" + id.channel;
    if id.location == "" {
      assert ToKeyName(id) == Lower(three + "");
    } else {
      assert ToKeyName(id) == Lower(three + ("_" + id.location));
    }
  }

  /** The key of a complete identifier has four fields. */
  lemma KeyIsLowerJoin(id: Identifier)
    requires id.location != ""
    ensures ToKeyName(id) == Lower(id.Join('_'))
    ensures |ToKeyName(id)| == |id.Join('_')|
    ensures forall i :: 0 <= i < |id.Join('_')| ==>
      ToKeyName(id)[i] as int == id.Join('_')[i] as int + if 65 <= id.Join('_')[i] as int <= 90 then 32 else 0
  {
    assert id.network + "_" + id.station + "_" + id.channel + ("_" + id.location) == id.Join('_');
  }

  /** Lower-casing loses nothing on strings without lower-case letters. */
  lemma LowerInjective(s: string, t: string)
    requires IsUpper(s) && IsUpper(t)
    requires Lower(s) == Lower(t)
    ensures s == t
  {
    assert |s| == |Lower(s)| == |Lower(t)| == |t|;
    forall i | 0 <= i < |s| ensures s[i] == t[i] {
      assert Lower(s)[i] == Lower(t)[i];
      assert ToUpper(s[i]) == s[i] && ToUpper(t[i]) == t[i];
    }
  }

  /** Where the separators that join an identifier stand. */
  function Cuts(id: Identifier): (nat, nat, nat) {
    var first := |id.network|;
    var second := first + 1 + |id.station|;
    (first, second, second + 1 + |id.channel|)
  }

  /** A joined name, letter by letter. */
  lemma JoinAt(id: Identifier, separator: char)
    ensures
      var s, c := id.Join(separator), Cuts(id);
      && |s| == c.2 + 1 + |id.location|
      && s[c.0] == separator && s[c.1] == separator && s[c.2] == separator
      && id.network == s[..c.0] && id.station == s[c.0 + 1..c.1]
      && id.channel == s[c.1 + 1..c.2] && id.location == s[c.2 + 1..]
  {
  }

  /** Two ways to cut the same name at the same places are the same. */
  lemma SameCuts(a: Identifier, b: Identifier, separator: char)
    requires a.Join(separator) == b.Join(separator) && Cuts(a) == Cuts(b)
    ensures a == b
  {
    JoinAt(a, separator);
    JoinAt(b, separator);
  }

  /** Between its own cuts an unambiguous name has separators only where they leave no room for another cut. */
  lemma SeparatorsOf(a: Identifier, separator: char, i: nat)
    requires !a.Ambiguous(separator) && i < |a.Join(separator)| && a.Join(separator)[i] == separator
    ensures
      var c, size := Cuts(a), |a.Join(separator)|;
      && (i < c.0 ==> i == 0)
      && (c.0 < i < c.1 ==> i == c.0 + 1 && c.1 == c.0 + 2)
      && (c.1 < i < c.2 ==> i == c.1 + 1 && c.2 == c.1 + 2)
      && (c.2 < i ==> i == size - 1)
  {
    JoinAt(a, separator);
    var s, c := a.Join(separator), Cuts(a);
    if i < c.0 {
      assert a.network[i] == separator;
    } else if c.0 < i < c.1 {
      assert a.station[i - c.0 - 1] == separator;
    } else if c.1 < i < c.2 {
      assert a.channel[i - c.1 - 1] == separator;
    } else if c.2 < i {
      assert a.location[i - c.2 - 1] == separator;
    }
  }

  /** A name that is not ambiguous has no second reading. */
  lemma UnambiguousIsUnique(a: Identifier, b: Identifier, separator: char)
    requires a.Complete() && b.Complete() && !a.Ambiguous(separator)
    requires a.Join(separator) == b.Join(separator)
    ensures a == b
  {
    JoinAt(a, separator);
    JoinAt(b, separator);
    var d := Cuts(b);
    SeparatorsOf(a, separator, d.0);
    SeparatorsOf(a, separator, d.1);
    SeparatorsOf(a, separator, d.2);
    SameCuts(a, b, separator);
  }

  /** Two neighbouring codes, cut at another separator inside them. */
  lemma Recut(x: string, y: string, i: nat, separator: char)
    requires i < |x + [separator] + y| && (x + [separator] + y)[i] == separator
    ensures
      var s := x + [separator] + y;
      s[..i] + [separator] + s[i + 1..] == s
  {
  }

  function RecutNetwork(a: Identifier, i: nat, separator: char): Identifier
    requires i < |a.network + [separator] + a.station|
  {
    var s := a.network + [separator] + a.station;
    Identifier(s[..i], s[i + 1..], a.channel, a.location)
  }

  function RecutStation(a: Identifier, i: nat, separator: char): Identifier
    requires i < |a.station + [separator] + a.channel|
  {
    var s := a.station + [separator] + a.channel;
    Identifier(a.network, s[..i], s[i + 1..], a.location)
  }

  function RecutChannel(a: Identifier, i: nat, separator: char): Identifier
    requires i < |a.channel + [separator] + a.location|
  {
    var s := a.channel + [separator] + a.location;
    Identifier(a.network, a.station, s[..i], s[i + 1..])
  }

  lemma RecutNetworkJoin(a: Identifier, i: nat, separator: char)
    requires i < |a.network + [separator] + a.station| && (a.network + [separator] + a.station)[i] == separator
    ensures RecutNetwork(a, i, separator).Join(separator) == a.Join(separator)
  {
    Recut(a.network, a.station, i, separator);
  }

  lemma RecutStationJoin(a: Identifier, i: nat, separator: char)
    requires i < |a.station + [separator] + a.channel| && (a.station + [separator] + a.channel)[i] == separator
    ensures RecutStation(a, i, separator).Join(separator) == a.Join(separator)
  {
    Recut(a.station, a.channel, i, separator);
    var b := RecutStation(a, i, separator);
    var x, z := a.network + [separator], [separator] + a.location;
    assert b.Join(separator) == x + (b.station + [separator] + b.channel) + z;
    assert a.Join(separator) == x + (a.station + [separator] + a.channel) + z;
  }

  lemma RecutChannelJoin(a: Identifier, i: nat, separator: char)
    requires i < |a.channel + [separator] + a.location| && (a.channel + [separator] + a.location)[i] == separator
    ensures RecutChannel(a, i, separator).Join(separator) == a.Join(separator)
  {
    Recut(a.channel, a.location, i, separator);
    var b := RecutChannel(a, i, separator);
    var x := a.network + [separator] + a.station + [separator];
    assert b.Join(separator) == x + (b.channel + [separator] + b.location);
    assert a.Join(separator) == x + (a.channel + [separator] + a.location);
  }

  /** Moving one cut of an ambiguous name to another separator gives a second identifier with the same name. */
  lemma SecondReading(a: Identifier, separator: char) returns (b: Identifier)
    requires a.Complete() && a.Ambiguous(separator)
    ensures b.Complete() && b != a && b.Join(separator) == a.Join(separator)
  {
    hide Identifier.Join;
    if i :| 0 < i < |a.network| && a.network[i] == separator {
      RecutNetworkJoin(a, i, separator);
      b := RecutNetwork(a, i, separator);
    } else if i :| 0 <= i < |a.station| - 1 && a.station[i] == separator {
      RecutNetworkJoin(a, |a.network| + 1 + i, separator);
      b := RecutNetwork(a, |a.network| + 1 + i, separator);
    } else if separator in a.station && |a.station| > 1 {
      assert Last(a.station) == separator;
      RecutStationJoin(a, |a.station| - 1, separator);
      b := RecutStation(a, |a.station| - 1, separator);
    } else if i :| 0 <= i < |a.channel| - 1 && a.channel[i] == separator {
      RecutStationJoin(a, |a.station| + 1 + i, separator);
      b := RecutStation(a, |a.station| + 1 + i, separator);
    } else if separator in a.channel && |a.channel| > 1 {
      assert Last(a.channel) == separator;
      RecutChannelJoin(a, |a.channel| - 1, separator);
      b := RecutChannel(a, |a.channel| - 1, separator);
    } else {
      var i :| 0 <= i < |a.location| - 1 && a.location[i] == separator;
      RecutChannelJoin(a, |a.channel| + 1 + i, separator);
      b := RecutChannel(a, |a.channel| + 1 + i, separator);
    }
  }

  /** Every letter of a part is a letter of the name. */
  lemma JoinUpperIff(id: Identifier, separator: char)
    requires ToUpper(separator) == separator
    ensures id.Normalised() <==> IsUpper(id.Join(separator))
  {
    JoinAt(id, separator);
    var s, c := id.Join(separator), Cuts(id);
    if id.Normalised() {
      forall i | 0 <= i < |s| ensures ToUpper(s[i]) == s[i] {
        assert
          || s[i] == separator || s[i] in id.network || s[i] in id.station || s[i] in id.channel
          || s[i] in id.location;
      }
    }
  }

  /** For all identifiers the setters can build, two keys are equal exactly when the joined names are. */
  lemma KeysEqualIffJoinsEqual(a: Identifier, b: Identifier)
    requires a.Complete() && b.Complete() && a.Normalised() && b.Normalised()
    ensures ToKeyName(a) == ToKeyName(b) <==> a.Join('_') == b.Join('_')
  {
    KeyIsLowerJoin(a);
    KeyIsLowerJoin(b);
    JoinUpperIff(a, '_');
    JoinUpperIff(b, '_');
    if ToKeyName(a) == ToKeyName(b) {
      LowerInjective(a.Join('_'), b.Join('_'));
    }
  }

  /** One side without a stray separator is enough for keys, and for cached names, to tell two identifiers apart. */
  lemma KeysSeparateStreams(a: Identifier, b: Identifier)
    requires a.Complete() && b.Complete() && a.Normalised() && b.Normalised()
    ensures !a.Ambiguous('_') ==> (ToKeyName(a) == ToKeyName(b) <==> a == b)
    ensures !a.Ambiguous('.') ==> (CachedName(a) == CachedName(b) <==> a == b)
    ensures a.Avoids('_') ==> !a.Ambiguous('_')
    ensures a.Avoids('.') ==> !a.Ambiguous('.')
  {
    KeysEqualIffJoinsEqual(a, b);
    if a.Join('_') == b.Join('_') && !a.Ambiguous('_') {
      UnambiguousIsUnique(a, b, '_');
    }
    if a.Join('.') == b.Join('.') && !a.Ambiguous('.') {
      UnambiguousIsUnique(a, b, '.');
    }
  }

  /** And it is needed: an identifier shares its key, or its cached name, with another exactly when it is ambiguous. */
  lemma SharedNamesIff(a: Identifier)
    requires a.Complete() && a.Normalised()
    ensures a.Ambiguous('_') <==>
      exists b: Identifier :: b.Complete() && b.Normalised() && b != a && ToKeyName(b) == ToKeyName(a)
    ensures a.Ambiguous('.') <==>
      exists b: Identifier :: b.Complete() && b.Normalised() && b != a && CachedName(b) == CachedName(a)
  {
    hide ToKeyName;
    forall b: Identifier | b.Complete() && b.Normalised() && b != a
      ensures !a.Ambiguous('_') ==> ToKeyName(b) != ToKeyName(a)
      ensures !a.Ambiguous('.') ==> CachedName(b) != CachedName(a)
    {
      KeysSeparateStreams(a, b);
    }
    JoinUpperIff(a, '_');
    JoinUpperIff(a, '.');
    if a.Ambiguous('_') {
      var b := SecondReading(a, '_');
      JoinUpperIff(b, '_');
      KeysEqualIffJoinsEqual(a, b);
      assert b.Complete() && b.Normalised() && b != a && ToKeyName(b) == ToKeyName(a);
    }
    if a.Ambiguous('.') {
      var b := SecondReading(a, '.');
      JoinUpperIff(b, '.');
      assert b.Complete() && b.Normalised() && b != a && CachedName(b) == CachedName(a);
    }
  }

  /** With an underscore inside a code two different streams can share one key. */
  lemma UnderscoreCollision()
    ensures
      var a := Identifier("N", "A_B", "Z", "1");
      var b := Identifier("N", "A", "B_Z", "1");
      && a.Complete() && b.Complete() && a.Normalised() && b.Normalised()
      && a != b && CachedName(a) != CachedName(b) && ToKeyName(a) == ToKeyName(b)
  {
    var a := Identifier("N", "A_B", "Z", "1");
    var b := Identifier("N", "A", "B_Z", "1");
    KeysEqualIffJoinsEqual(a, b);
    assert a.Join('_') == "N_A_B_Z_1" == b.Join('_');
    assert CachedName(a) == "N.A_B.Z.1";
    assert CachedName(b) == "N.A.B_Z.1";
    assert CachedName(a)[3] != CachedName(b)[3];
  }

  datatype NameError = NetworkEmpty | StationEmpty | ChannelEmpty

  /** The mutable identifier with its cached name. */
  class StreamIdentifier {
    var network: string
    var station: string
    var channel: string
    var location: string
    var name: string

    ghost function Value(): Identifier
      reads this
    {
      Identifier(network, station, channel, location)
    }

    ghost predicate Valid()
      reads this
    {
      name == CachedName(Value()) && Value().Normalised()
    }

    constructor ()
      ensures Valid() && Value() == UNSET
    {
      network, station, channel, location, name := "", "", "", "", "";
    }

    method SetString()
      modifies this`name
      ensures name == CachedName(Value())
      ensures name == if network != "" && station != "" && channel != "" && location != ""
                      then network + "." + station + "." + channel + "." + location else ""
    {
      name := "";
      if network != "" && station != "" && channel != "" && location != "" {
        name := network + "." + station + "." + channel + "." + location;
      }
    }

    method Clear()
      modifies this
      ensures Valid() && Value() == UNSET
    {
      network, station, channel, location := "", "", "", "";
      SetString();
    }

    method SetNetwork(code: string) returns (r: Result<(), NameError>)
      requires Valid()
      modifies this
      ensures Valid()
      ensures r.Err? <==> IsBlank(ConvertString(code))
      ensures r.Err? ==> r.error == NetworkEmpty && Value() == old(Value())
      ensures r.Ok? ==> Value() == old(Value()).(network := ConvertString(code)) && network != ""
    {
      var s := ConvertString(code);
      if IsBlank(s) {
        return Err(NetworkEmpty);
      }
      ConvertStringIs(code);
      network := s;
      SetString();
      return Ok(());
    }

    method SetStation(code: string) returns (r: Result<(), NameError>)
      requires Valid()
      modifies this
      ensures Valid()
      ensures r.Err? <==> IsBlank(ConvertString(code))
      ensures r.Err? ==> r.error == StationEmpty && Value() == old(Value())
      ensures r.Ok? ==> Value() == old(Value()).(station := ConvertString(code)) && station != ""
    {
      var s := ConvertString(code);
      if IsBlank(s) {
        return Err(StationEmpty);
      }
      ConvertStringIs(code);
      station := s;
      SetString();
      return Ok(());
    }

    method SetChannel(code: string) returns (r: Result<(), NameError>)
      requires Valid()
      modifies this
      ensures Valid()
      ensures r.Err? <==> IsBlank(ConvertString(code))
      ensures r.Err? ==> r.error == ChannelEmpty && Value() == old(Value())
      ensures r.Ok? ==> Value() == old(Value()).(channel := ConvertString(code)) && channel != ""
    {
      var s := ConvertString(code);
      if IsBlank(s) {
        return Err(ChannelEmpty);
      }
      ConvertStringIs(code);
      channel := s;
      SetString();
      return Ok(());
    }

    /** A blank location code becomes two dashes, so a location code that was set is never empty. */
    method SetLocationCode(code: string)
      requires Valid()
      modifies this
      ensures Valid()
      ensures location != ""
      ensures Value() == old(Value()).(location := LocationOf(code))
      ensures IsBlank(code) ==> location == "--"
    {
      var s := ConvertString(code);
      ConvertStringIs(code);
      if IsBlank(code) {
        location := "--";
      } else {
        location := s;
      }
      SetString();
    }
  }

  function LocationOf(code: string): string {
    if IsBlank(code) then NO_LOCATION else ConvertString(code)
  }
}
