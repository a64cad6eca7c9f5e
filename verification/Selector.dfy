/** Stream selectors: the text form with its in-place space collapsing, and the printed form. */
module Selector {
  import opened Common
  import opened StreamNames

  // ---- strings ----

  function TrimLeft(s: string): string {
    if s != "" && IsSpace(s[0]) then TrimLeft(s[1..]) else s
  }

  function TrimRight(s: string): string {
    if s != "" && IsSpace(Last(s)) then TrimRight(ButLast(s)) else s
  }

  function Trim(s: string): string {
    TrimRight(TrimLeft(s))
  }

  /** Drops every space that follows a space. */
  function Collapse(s: string): string {
    if |s| < 2 then s
    else if s[0] == ' ' && s[1] == ' ' then Collapse(s[1..])
    else [s[0]] + Collapse(s[1..])
  }

  ghost predicate NoAdjacentSpaces(s: string) {
    forall i :: 0 < i < |s| ==> !(s[i - 1] == ' ' && s[i] == ' ')
  }

  predicate IsDelimiter(c: char) {
    c == ' ' || c == '\t'
  }

  /** Splitting at every delimiter, keeping empty pieces. */
  function Split(s: string): (tokens: seq<string>)
    ensures tokens != []
  {
    if s == "" then [""]
    else
      var tokens := Split(ButLast(s));
      if IsDelimiter(Last(s)) then tokens + [""] else ButLast(tokens) + [Last(tokens) + [Last(s)]]
  }

  /** Where position k - 1 starts the part that is still to be collapsed. */
  lemma CollapseStep(work: string, k: nat)
    requires 0 < k < |work|
    ensures work[k - 1] == ' ' == work[k] ==>
      (work[..k] + work[k + 1..])[..k - 1] == work[..k - 1] &&
      Collapse((work[..k] + work[k + 1..])[k - 1..]) == Collapse(work[k - 1..])
    ensures !(work[k - 1] == ' ' == work[k]) ==>
      work[..k - 1] + Collapse(work[k - 1..]) == work[..k] + Collapse(work[k..])
  {
    assert work[k - 1..][1..] == work[k..];
    if work[k - 1] == ' ' == work[k] {
      assert (work[..k] + work[k + 1..])[k - 1..] == work[k..];
    } else {
      assert work[..k - 1] + ([work[k - 1]] + Collapse(work[k..])) == work[..k] + Collapse(work[k..]);
    }
  }

  /** Erases in place, from left to right, the second of two adjacent spaces. */
  method CollapseSpaces(s: string) returns (work: string)
    ensures work == Collapse(s)
  {
    work := s;
    var k := 1;
    assert s != "" ==> s[..0] + Collapse(s[0..]) == Collapse(s);
    while k < |work|
      invariant s == "" ==> work == ""
      invariant s != "" ==> 1 <= k <= |work| && work[..k - 1] + Collapse(work[k - 1..]) == Collapse(s)
      decreases |work| - k
    {
      hide Collapse;
      CollapseStep(work, k);
      assert s != "";
      if work[k - 1] == work[k] && work[k] == ' ' {
        work := work[..k] + work[k + 1..];
      } else {
        k := k + 1;
      }
    }
    if s != "" {
      assert work == work[..k - 1] + work[k - 1..];
    }
  }

  lemma {:induction false} CollapseKeepsFirst(s: string)
    ensures Collapse(s) == "" <==> s == ""
    ensures s != "" ==> Collapse(s)[0] == s[0]
  {
    if |s| >= 2 {
      CollapseKeepsFirst(s[1..]);
    }
  }

  /** Collapsing leaves no two spaces side by side, and changes nothing where there are none: it is idempotent. */
  lemma {:induction false} CollapseNormalises(s: string)
    ensures NoAdjacentSpaces(Collapse(s))
    ensures NoAdjacentSpaces(s) ==> Collapse(s) == s
  {
    if |s| >= 2 {
      CollapseNormalises(s[1..]);
      CollapseKeepsFirst(s[1..]);
      assert NoAdjacentSpaces(s) ==> NoAdjacentSpaces(s[1..]) by {
        if NoAdjacentSpaces(s) {
          forall i | 0 < i < |s| - 1 ensures !(s[1..][i - 1] == ' ' && s[1..][i] == ' ') {
            assert s[1..][i - 1] == s[i] && s[1..][i] == s[i + 1];
            assert !(s[(i + 1) - 1] == ' ' && s[i + 1] == ' ');
          }
        }
      }
      assert s == [s[0]] + s[1..];
    }
  }

  lemma CollapseIdempotent(s: string)
    ensures Collapse(Collapse(s)) == Collapse(s)
  {
    CollapseNormalises(s);
    CollapseNormalises(Collapse(s));
  }

  // ---- tokens under padding ----

  ghost predicate IsToken(t: string) {
    t != "" && forall i :: 0 <= i < |t| ==> !IsSpace(t[i])
  }

  ghost predicate AreTokens(tokens: seq<string>) {
    tokens != [] && forall i :: 0 <= i < |tokens| ==> IsToken(tokens[i])
  }

  /** Between two tokens stands one tab or any number of spaces. */
  ghost predicate IsGap(gap: string) {
    gap == "\t" || (gap != "" && forall i :: 0 <= i < |gap| ==> gap[i] == ' ')
  }

  /** The tokens with the given gaps between them. */
  function Spread(tokens: seq<string>, gaps: seq<string>): string
    requires tokens != [] && |gaps| == |tokens| - 1
    decreases |tokens|
  {
    if |tokens| == 1 then tokens[0]
    else Spread(ButLast(tokens), ButLast(gaps)) + Last(gaps) + Last(tokens)
  }

  ghost predicate AreGaps(gaps: seq<string>) {
    forall i :: 0 <= i < |gaps| ==> IsGap(gaps[i])
  }

  lemma {:induction false} TrimLeftBlank(pad: string, s: string)
    requires IsBlank(pad) && s != "" && !IsSpace(s[0])
    ensures TrimLeft(pad + s) == s
  {
    if pad != "" {
      assert (pad + s)[1..] == pad[1..] + s;
      TrimLeftBlank(pad[1..], s);
    } else {
      assert pad + s == s;
    }
  }

  lemma {:induction false} TrimRightBlank(pad: string, s: string)
    requires IsBlank(pad) && s != "" && !IsSpace(Last(s))
    ensures TrimRight(s + pad) == s
  {
    if pad != "" {
      assert ButLast(s + pad) == s + ButLast(pad);
      TrimRightBlank(ButLast(pad), s);
    } else {
      assert s + pad == s;
    }
  }

  lemma TrimBlank(left: string, s: string, right: string)
    requires IsBlank(left) && IsBlank(right) && s != "" && !IsSpace(s[0]) && !IsSpace(Last(s))
    ensures Trim(left + s + right) == s
  {
    assert left + s + right == left + (s + right);
    TrimLeftBlank(left, s + right);
    TrimRightBlank(right, s);
  }

  lemma {:induction false} SpreadEnds(tokens: seq<string>, gaps: seq<string>)
    requires AreTokens(tokens) && |gaps| == |tokens| - 1
    ensures
      var s := Spread(tokens, gaps);
      s != "" && !IsSpace(s[0]) && !IsSpace(Last(s))
    decreases |tokens|
  {
    assert IsToken(tokens[0]) && IsToken(Last(tokens));
    if |tokens| > 1 {
      assert forall i :: 0 <= i < |tokens| - 1 ==> ButLast(tokens)[i] == tokens[i];
      SpreadEnds(ButLast(tokens), ButLast(gaps));
    }
  }

  /** After anything but a space, collapsing starts afresh. */
  lemma {:induction false} CollapseAppend(a: string, b: string)
    requires a != "" && Last(a) != ' '
    ensures Collapse(a + b) == Collapse(a) + Collapse(b)
  {
    if |a| == 1 {
      if b == "" {
        assert a + b == a;
      } else {
        assert (a + b)[1..] == b;
      }
    } else {
      assert (a + b)[1..] == a[1..] + b;
      CollapseAppend(a[1..], b);
    }
  }

  lemma CollapseToken(t: string)
    requires IsToken(t)
    ensures Collapse(t) == t
  {
    assert forall i :: 0 <= i < |t| ==> t[i] != ' ';
    CollapseNormalises(t);
  }

  lemma {:induction false} CollapseGap(gap: string, t: string)
    requires IsGap(gap) && IsToken(t)
    ensures Collapse(gap + t) == [gap[0]] + t
  {
    var s := gap + t;
    assert s[1..] == gap[1..] + t;
    if |gap| > 1 {
      assert gap[1..][0] == ' ';
      CollapseGap(gap[1..], t);
    } else {
      assert gap[1..] + t == t;
      CollapseToken(t);
      assert t[0] != ' ';
    }
  }

  /** A text without space and tab is one piece, and any space or tab before it ends the pieces before. */
  lemma {:induction false} SplitToken(a: string, c: char, t: string)
    requires c as int in {9, 32} && forall i :: 0 <= i < |t| ==> t[i] as int !in {9, 32}
    ensures Split(a + [c] + t) == Split(a) + [t]
    decreases t
  {
    var s := a + [c] + t;
    if t == "" {
      assert ButLast(s) == a;
    } else {
      assert ButLast(s) == a + [c] + ButLast(t);
      SplitToken(a, c, ButLast(t));
      assert t == ButLast(t) + [Last(t)];
    }
  }

  lemma {:induction false} SplitSingle(t: string)
    requires forall i :: 0 <= i < |t| ==> t[i] as int !in {9, 32}
    ensures Split(t) == [t]
  {
    if t != "" {
      SplitSingle(ButLast(t));
      assert t == ButLast(t) + [Last(t)];
    }
  }

  lemma SplitLastToken(before: string, gap: string, t: string)
    requires before != "" && !IsSpace(Last(before)) && IsGap(gap) && IsToken(t)
    ensures Split(Collapse(before + gap + t)) == Split(Collapse(before)) + [t]
  {
    hide Collapse, Split;
    CollapseAppend(before, gap + t);
    CollapseGap(gap, t);
    assert before + gap + t == before + (gap + t);
    assert Collapse(before) + ([gap[0]] + t) == Collapse(before) + [gap[0]] + t;
    SplitToken(Collapse(before), gap[0], t);
  }

  /** Splitting the collapsed text gives back the tokens, whatever the gaps were. */
  lemma {:induction false} SplitSpread(tokens: seq<string>, gaps: seq<string>)
    requires AreTokens(tokens) && |gaps| == |tokens| - 1 && AreGaps(gaps)
    ensures Split(Collapse(Spread(tokens, gaps))) == tokens
    decreases |tokens|
  {
    var t := Last(tokens);
    assert IsToken(t);
    if |tokens| == 1 {
      CollapseToken(t);
      SplitSingle(t);
    } else {
      var rest, before := ButLast(tokens), Spread(ButLast(tokens), ButLast(gaps));
      assert forall i :: 0 <= i < |rest| ==> rest[i] == tokens[i];
      SplitSpread(rest, ButLast(gaps));
      SpreadEnds(rest, ButLast(gaps));
      SplitLastToken(before, Last(gaps), t);
      assert tokens == rest + [t];
      hide Collapse, Split;
    }
  }

  // ---- selectors ----

  datatype Type = All | Data | Event | Calibration | Blockette | Timing | Log

  datatype SelectorError = EmptySelector | NetworkSize | StationMissing | StationEmpty

  datatype Value = Value(
    network: string, station: string, channel: string, location: string, kind: Type, noLocation: bool)

  class StreamSelector {
    var network: string
    var station: string
    var channel: string
    var location: string
    var kind: Type
    var noLocation: bool

    ghost function View(): Value
      reads this
    {
      Value(network, station, channel, location, kind, noLocation)
    }

    constructor ()
      ensures View() == Value("", "*", "", "", All, false)
    {
      network, station, channel, location, kind, noLocation := "", "*", "", "", All, false;
    }

    method SetNetwork(name: string) returns (r: Result<(), SelectorError>)
      modifies this`network
      ensures r == if |name| != 2 then Err(NetworkSize) else Ok(())
      ensures network == if |name| != 2 then old(network) else Upper(name)
    {
      if |name| != 2 {
        return Err(NetworkSize);
      }
      network := Upper(name);
      return Ok(());
    }

    method SetStation(name: string) returns (r: Result<(), SelectorError>)
      modifies this`station
      ensures r == if name == "" then Err(SelectorError.StationEmpty) else Ok(())
      ensures station == if name == "" then old(station) else Upper(name)
    {
      if name == "" {
        return Err(SelectorError.StationEmpty);
      }
      station := Upper(name);
      return Ok(());
    }

    method SetSelectorWithoutLocation(name: string, kind: Type)
      modifies this`channel, this`location, this`noLocation, this`kind
      ensures channel == Upper(name) && location == "" && noLocation && this.kind == kind
    {
      channel := Upper(name);
      location := "";
      noLocation := true;
      this.kind := kind;
    }

    method SetSelector(name: string, code: string, kind: Type)
      modifies this`channel, this`location, this`noLocation, this`kind
      ensures channel == Upper(name) && location == code && !noLocation && this.kind == kind
    {
      channel := Upper(name);
      location := code;
      noLocation := false;
      this.kind := kind;
    }

    /** Parses a text such as UU CWU HH? 01 D. */
    static method FromString(text: string) returns (selector: StreamSelector, error: Option<SelectorError>)
      ensures fresh(selector)
      ensures
        match Parse(Split(Collapse(Trim(text))))
        case Ok(v) => error.None? && selector.View() == v
        case Err(e) => error == Some(e)
    {
      selector := new StreamSelector();
      var split := CollapseSpaces(Trim(text));
      var tokens := Split(split);
      SplitEmpty(split);
      hide Trim, Collapse, Split, Upper;
      if split == "" {
        return selector, Some(EmptySelector);
      }
      var r := selector.SetNetwork(Trim(tokens[0]));
      if r.Err? {
        return selector, Some(r.error);
      }
      if |split| > 1 {
        if |tokens| < 2 {
          return selector, Some(StationMissing);
        }
        r := selector.SetStation(Trim(tokens[1]));
        if r.Err? {
          return selector, Some(r.error);
        }
      }
      var channel := if |tokens| > 2 then Trim(tokens[2]) else "*";
      if |tokens| > 4 {
        selector.SetSelector(channel, Trim(tokens[3]), GetDataType(tokens));
      } else if |tokens| == 4 {
        if |tokens[3]| > 1 {
          selector.SetSelector(channel, tokens[3], All);
        } else {
          selector.SetSelectorWithoutLocation(channel, GetDataType(tokens));
        }
      } else {
        selector.SetSelector(channel, "??", All);
      }
      return selector, None;
    }
  }

  function GetDataType(tokens: seq<string>): Type
    requires tokens != []
  {
    var last := Trim(Last(tokens));
    if last == "D" || last == "d" then Data else All
  }

  /** The selector as a function of the token list alone. */
  function Parse(tokens: seq<string>): Result<Value, SelectorError>
    requires tokens != []
  {
    if tokens == [""] then Err(EmptySelector)
    else if |Trim(tokens[0])| != 2 then Err(NetworkSize)
    else if |tokens| == 1 then Err(StationMissing)
    else if Trim(tokens[1]) == "" then Err(SelectorError.StationEmpty)
    else
      var network, station := Upper(Trim(tokens[0])), Upper(Trim(tokens[1]));
      var channel := Upper(if |tokens| > 2 then Trim(tokens[2]) else "*");
      if |tokens| > 4 then Ok(Value(network, station, channel, Trim(tokens[3]), GetDataType(tokens), false))
      else if |tokens| == 4 && |tokens[3]| <= 1 then Ok(Value(network, station, channel, "", GetDataType(tokens), true))
      else Ok(Value(network, station, channel, if |tokens| == 4 then tokens[3] else "??", All, false))
  }

  lemma SplitEmpty(s: string)
    ensures s == "" <==> Split(s) == [""]
    ensures |s| <= 1 ==> |Trim(Split(s)[0])| <= 1
  {
    if |s| > 1 {
      SplitLength(s);
    }
    if |s| == 1 {
      assert ButLast(s) == "";
      TrimShortens(Split(s)[0]);
    }
  }

  lemma {:induction false} SplitLength(s: string)
    ensures |s| > 0 ==> |Split(s)| > 1 || |Split(s)[0]| > 0
  {
    if |s| > 0 {
      SplitLength(ButLast(s));
    }
  }

  lemma {:induction false} TrimLeftShortens(s: string)
    ensures |TrimLeft(s)| <= |s|
  {
    if s != "" && IsSpace(s[0]) {
      TrimLeftShortens(s[1..]);
    }
  }

  lemma {:induction false} TrimRightShortens(s: string)
    ensures |TrimRight(s)| <= |s|
  {
    if s != "" && IsSpace(Last(s)) {
      TrimRightShortens(ButLast(s));
    }
  }

  lemma TrimShortens(s: string)
    ensures |Trim(s)| <= |s|
  {
    TrimLeftShortens(s);
    TrimRightShortens(TrimLeft(s));
  }

  /** What FromString does to a text. */
  function Selected(text: string): Result<Value, SelectorError> {
    Parse(Split(Collapse(Trim(text))))
  }

  /** Any white space around the same tokens and any gaps between them give the same selector or the same failure. */
  lemma PaddingDoesNotMatter(tokens: seq<string>, left: string, gaps: seq<string>, right: string)
    requires AreTokens(tokens) && |gaps| == |tokens| - 1 && AreGaps(gaps)
    requires IsBlank(left) && IsBlank(right)
    ensures Selected(left + Spread(tokens, gaps) + right) == Parse(tokens)
  {
    SpreadEnds(tokens, gaps);
    TrimBlank(left, Spread(tokens, gaps), right);
    SplitSpread(tokens, gaps);
    hide Spread, Parse, Trim, Collapse, Split;
  }

  /** A text is accepted exactly when it has a network of two letters and a station; a network alone never is. */
  lemma AcceptedTexts(text: string)
    ensures
      var tokens := Split(Collapse(Trim(text)));
      && (Selected(text).Ok? <==> |tokens| >= 2 && |Trim(tokens[0])| == 2 && Trim(tokens[1]) != "")
      && (Selected(text).Err? ==>
            Selected(text).error ==
              if Collapse(Trim(text)) == "" then EmptySelector
              else if |Trim(tokens[0])| != 2 then NetworkSize
              else if |tokens| < 2 then StationMissing else SelectorError.StationEmpty)
  {
    SplitEmpty(Collapse(Trim(text)));
    hide Trim, Collapse, Split, Upper, GetDataType;
  }

  lemma NetworkAloneFails(network: string, left: string, right: string)
    requires IsToken(network) && IsBlank(left) && IsBlank(right)
    ensures Selected(left + network + right).Err?
  {
    PaddingDoesNotMatter([network], left, [], right);
  }

  // ---- printing ----

  function TypeSuffix(kind: Type): string {
    match kind
    case All => ".*"
    case Data => ".D"
    case Timing => ".T"
    case Log => ".L"
    case Event => ".E"
    case Blockette => ".B"
    case Calibration => ".C"
  }

  function GetSelector(v: Value): string {
    var place :=
      if v.location == "" && v.channel == "" then ""
      else
        (if v.location != "" then v.location else if v.noLocation then "" else "??")
          + if v.channel == "" then "*" else v.channel;
    if place != "" then place + TypeSuffix(v.kind)
    else if v.kind == All then ""
    else "*" + TypeSuffix(v.kind)
  }

  /** Five or more tokens print as location, upper-case channel and type. */
  lemma FiveTokensPrint(tokens: seq<string>)
    requires AreTokens(tokens) && |tokens| >= 5 && |tokens[0]| == 2
    ensures Parse(tokens).Ok?
    ensures Parse(tokens).value.network == Upper(tokens[0]) && Parse(tokens).value.station == Upper(tokens[1])
    ensures GetSelector(Parse(tokens).value)
         == tokens[3] + Upper(tokens[2]) + if Last(tokens) in {"D", "d"} then ".D" else ".*"
  {
    forall i | 0 <= i < |tokens| ensures Trim(tokens[i]) == tokens[i] != "" {
      assert IsToken(tokens[i]);
    }
    hide Trim, IsToken;
    assert Upper(tokens[2]) != "" by {
      assert |Upper(tokens[2])| == |tokens[2]|;
    }
  }

  /**
   * Fewer tokens: without a fourth the location is left open; a fourth of one letter is a type and drops the
   * location, a longer one is a location.
   */
  lemma FewTokensPrint(tokens: seq<string>)
    requires AreTokens(tokens) && 2 <= |tokens| <= 4 && |tokens[0]| == 2
    ensures Parse(tokens).Ok?
    ensures Parse(tokens).value.network == Upper(tokens[0]) && Parse(tokens).value.station == Upper(tokens[1])
    ensures
      var printed := GetSelector(Parse(tokens).value);
      match |tokens|
      case 2 => printed == "??" + "*" + ".*"
      case 3 => printed == "??" + Upper(tokens[2]) + ".*"
      case _ =>
        if |tokens[3]| > 1 then printed == tokens[3] + Upper(tokens[2]) + ".*"
        else printed == Upper(tokens[2]) + if tokens[3] in {"D", "d"} then ".D" else ".*"
  {
    forall i | 0 <= i < |tokens| ensures Trim(tokens[i]) == tokens[i] != "" {
      assert IsToken(tokens[i]);
    }
    assert Upper("*") == "*";
    assert |tokens| > 2 ==> |Upper(tokens[2])| == |tokens[2]| > 0;
    hide Trim, IsToken, Upper, AreTokens, IsSpace;
  }

  /** A selector prints its type as a last letter, or as a star for all of them; so types print differently. */
  lemma TypesPrintDifferently(v: Value, a: Type, b: Type)
    ensures GetSelector(v.(kind := a)) == GetSelector(v.(kind := b)) <==> a == b
    ensures GetSelector(v.(kind := a)) != "" ==>
      Last(GetSelector(v.(kind := a))) ==
        match a
        case All => '*'
        case Data => 'D'
        case Event => 'E'
        case Calibration => 'C'
        case Blockette => 'B'
        case Timing => 'T'
        case Log => 'L'
  {
    var s, t := TypeSuffix(a), TypeSuffix(b);
    assert |s| == 2 == |t|;
    var x, y := GetSelector(v.(kind := a)), GetSelector(v.(kind := b));
    if x == y && x != "" {
      assert Last(x) == s[1] && Last(y) == t[1];
    }
  }

  /** With two-character locations the printed selector determines location, channel and type. */
  lemma PrintedSelectorInjective(a: seq<string>, b: seq<string>)
    requires AreTokens(a) && |a| >= 5 && |a[0]| == 2 && |a[3]| == 2
    requires AreTokens(b) && |b| >= 5 && |b[0]| == 2 && |b[3]| == 2
    ensures Parse(a).Ok? && Parse(b).Ok?
    ensures GetSelector(Parse(a).value) == GetSelector(Parse(b).value) <==>
      a[3] == b[3] && Upper(a[2]) == Upper(b[2]) && (Last(a) in {"D", "d"} <==> Last(b) in {"D", "d"})
  {
    FiveTokensPrint(a);
    FiveTokensPrint(b);
    hide Parse, GetSelector, Upper, AreTokens;
    var s, t := if Last(a) in {"D", "d"} then ".D" else ".*", if Last(b) in {"D", "d"} then ".D" else ".*";
    var u, v := Upper(a[2]), Upper(b[2]);
    var x, y := a[3] + u + s, b[3] + v + t;
    if x == y {
      assert x[..2] == a[3] && y[..2] == b[3];
      assert x[2..|x| - 2] == u && y[2..|y| - 2] == v;
      assert x[|x| - 1] == s[1] && y[|y| - 1] == t[1];
    }
  }
}
