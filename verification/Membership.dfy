/**
 Signed pool membership: the message that is signed, and the checks on a token.

 Text is a sequence of code points, lone surrogates included, as in a Python `str`; the keyed
 hash and the decimal form of the timestamp are parameters.
 */
module Membership {
  import opened Basics

  type Text = seq<nat>

  type Bytes = seq<nat>

  const QUOTE: nat := 0x22
  const COMMA: nat := 0x2c
  const OPEN: nat := 0x5b
  const BACKSLASH: nat := 0x5c
  const CLOSE: nat := 0x5d

  ghost predicate IsText(s: Text) {
    forall i :: 0 <= i < |s| ==> s[i] < 0x110000
  }

  // ---- the encoding: section 7 of RFC 8259, ASCII output only ----

  function Hex(digit: nat): nat {
    if digit < 10 then 0x30 + digit else 0x57 + digit
  }

  /** The short escapes: backspace, tab, newline, form feed, return, quote, backslash. */
  function ShortEscape(unit: nat): Option<nat> {
    if unit == 0x08 then Some(0x62) else if unit == 0x09 then Some(0x74) else if unit == 0x0a then Some(0x6e)
    else if unit == 0x0c then Some(0x66) else if unit == 0x0d then Some(0x72)
    else if unit == QUOTE || unit == BACKSLASH then Some(unit) else None
  }

  function EscapeUnit(unit: nat): Bytes {
    if ShortEscape(unit).Some? then [BACKSLASH, ShortEscape(unit).value]
    else if 0x20 <= unit <= 0x7e then [unit]
    else [BACKSLASH, 0x75, Hex(unit / 4096), Hex(unit / 256 % 16), Hex(unit / 16 % 16), Hex(unit % 16)]
  }

  function High(c: nat): nat
    requires c >= 0x10000
  {
    0xd800 + (c - 0x10000) / 0x400
  }

  function Low(c: nat): nat
    requires c >= 0x10000
  {
    0xdc00 + (c - 0x10000) % 0x400
  }

  function Escape(c: nat): Bytes {
    if c < 0x10000 then EscapeUnit(c) else EscapeUnit(High(c)) + EscapeUnit(Low(c))
  }

  function Escaped(s: Text): Bytes {
    if s == [] then [] else Escape(s[0]) + Escaped(s[1..])
  }

  /** A string, its quotes, and what follows it. */
  function Quoted(s: Text, rest: Bytes): Bytes {
    [QUOTE] + Escaped(s) + [QUOTE] + rest
  }

  /** What is signed; `timestamp` is the decimal form. */
  datatype Fields = Fields(version: Text, worker: Text, timestamp: Text)

  /** `_canonical`: the compact JSON list of the three strings. */
  function Canonical(f: Fields): Bytes {
    [OPEN] + Quoted(f.version, [COMMA] + Quoted(f.worker, [COMMA] + Quoted(f.timestamp, [CLOSE])))
  }

  ghost predicate AreText(f: Fields) {
    IsText(f.version) && IsText(f.worker) && IsText(f.timestamp)
  }

  // ---- UTF-16 code units ----

  function Units(s: Text): seq<nat> {
    if s == [] then []
    else (if s[0] < 0x10000 then [s[0]] else [High(s[0]), Low(s[0])]) + Units(s[1..])
  }

  predicate IsHigh(unit: nat) { 0xd800 <= unit < 0xdc00 }

  predicate IsLow(unit: nat) { 0xdc00 <= unit < 0xe000 }

  function Joined(high: nat, low: nat): nat
    requires IsHigh(high) && IsLow(low)
  {
    0x10000 + (high - 0xd800) * 0x400 + (low - 0xdc00)
  }

  /** Surrogate pairs joined into the code points they stand for. */
  function Join(units: seq<nat>): Text {
    if units == [] then []
    else if |units| > 1 && IsHigh(units[0]) && IsLow(units[1])
    then [Joined(units[0], units[1])] + Join(units[2..])
    else [units[0]] + Join(units[1..])
  }

  ghost predicate AreUnits(units: seq<nat>) {
    forall i :: 0 <= i < |units| ==> units[i] < 0x10000
  }

  /** No high surrogate stands right before a low one; true of every string of Unicode scalar values. */
  ghost predicate NoPair(s: Text) {
    forall i :: 0 <= i < |s| - 1 ==> !(IsHigh(s[i]) && IsLow(s[i + 1]))
  }

  ghost predicate NoPairs(f: Fields) {
    NoPair(f.version) && NoPair(f.worker) && NoPair(f.timestamp)
  }

  ghost predicate SameUnits(f: Fields, g: Fields) {
    Units(f.version) == Units(g.version) && Units(f.worker) == Units(g.worker)
      && Units(f.timestamp) == Units(g.timestamp)
  }

  function JoinAll(f: Fields): Fields {
    Fields(Join(Units(f.version)), Join(Units(f.worker)), Join(Units(f.timestamp)))
  }

  function EscapedUnits(units: seq<nat>): Bytes {
    if units == [] then [] else EscapeUnit(units[0]) + EscapedUnits(units[1..])
  }

  lemma {:induction false} UnitsAreUnits(s: Text)
    requires IsText(s)
    ensures AreUnits(Units(s))
  {
    if s != [] {
      UnitsAreUnits(s[1..]);
    }
  }

  lemma EscapedPair(high: nat, low: nat, rest: seq<nat>)
    ensures EscapedUnits([high, low] + rest) == EscapeUnit(high) + EscapeUnit(low) + EscapedUnits(rest)
  {
    hide EscapeUnit;
    assert ([high, low] + rest)[1..] == [low] + rest && ([low] + rest)[1..] == rest;
  }

  lemma {:induction false} EscapedByUnits(s: Text)
    ensures Escaped(s) == EscapedUnits(Units(s))
  {
    if s != [] {
      hide EscapeUnit;
      EscapedByUnits(s[1..]);
      var rest := Units(s[1..]);
      if s[0] < 0x10000 {
        assert ([s[0]] + rest)[1..] == rest;
      } else {
        var h, l := High(s[0]), Low(s[0]);
        EscapedPair(h, l, rest);
      }
    }
  }

  /** Joining undoes splitting exactly when no surrogate pair was spelled out. */
  lemma {:induction false} JoinUnits(s: Text)
    requires IsText(s) && NoPair(s)
    ensures Join(Units(s)) == s
  {
    if s != [] {
      var rest := s[1..];
      JoinUnits(rest);
      UnitsHead(rest);
      if s[0] < 0x10000 {
        assert Units(s)[1..] == Units(rest);
        assert rest != [] ==> !(IsHigh(s[0]) && IsLow(s[1]));
      } else {
        assert Units(s)[2..] == Units(rest);
      }
    }
  }

  lemma UnitsHead(s: Text)
    requires IsText(s)
    ensures Units(s) == [] <==> s == []
    ensures s != [] && IsLow(Units(s)[0]) ==> IsLow(s[0])
  {
  }

  lemma {:induction false} JoinHasNoPair(units: seq<nat>)
    ensures NoPair(Join(units))
    ensures Join(units) == [] <==> units == []
    ensures units != [] && IsLow(Join(units)[0]) ==> IsLow(units[0])
  {
    if |units| > 1 && IsHigh(units[0]) && IsLow(units[1]) {
      JoinHasNoPair(units[2..]);
    } else if units != [] {
      JoinHasNoPair(units[1..]);
    }
  }

  lemma JoinStep(units: seq<nat>)
    requires units != []
    ensures Join(units)
         == if |units| > 1 && IsHigh(units[0]) && IsLow(units[1]) then [Joined(units[0], units[1])] + Join(units[2..])
            else [units[0]] + Join(units[1..])
  {
  }

  lemma JoinNothing()
    ensures Units(Join([])) == [] && IsText(Join([]))
  {
  }

  lemma TextCons(c: nat, rest: Text)
    requires c < 0x110000 && IsText(rest)
    ensures IsText([c] + rest)
  {
  }

  lemma {:induction false} UnitsOfJoin(units: seq<nat>)
    requires AreUnits(units)
    ensures Units(Join(units)) == units && IsText(Join(units))
  {
    hide Units, Join, Joined, IsText;
    JoinNothing();
    if |units| > 1 && IsHigh(units[0]) && IsLow(units[1]) {
      var joined, rest := Joined(units[0], units[1]), units[2..];
      JoinStep(units);
      UnitsOfJoin(rest);
      UnitsStep(joined, Join(rest));
      JoinedPair(units[0], units[1]);
      TextCons(joined, Join(rest));
      assert units == [units[0], units[1]] + rest;
    } else if units != [] {
      var rest := units[1..];
      JoinStep(units);
      UnitsOfJoin(rest);
      UnitsStep(units[0], Join(rest));
      TextCons(units[0], Join(rest));
      assert units == [units[0]] + rest;
    }
  }

  lemma JoinedPair(high: nat, low: nat)
    requires IsHigh(high) && IsLow(low)
    ensures var c := Joined(high, low);
            0x10000 <= c < 0x110000 && High(c) == high && Low(c) == low
  {
  }

  lemma UnitsStep(c: nat, rest: Text)
    ensures Units([c] + rest) == (if c < 0x10000 then [c] else [High(c), Low(c)]) + Units(rest)
  {
    assert ([c] + rest)[1..] == rest;
  }

  // ---- a decoder ----

  function HexValue(c: nat): Option<nat> {
    if 0x30 <= c <= 0x39 then Some(c - 0x30) else if 0x61 <= c <= 0x66 then Some(c - 0x57) else None
  }

  function LongEscape(b: Bytes): Option<nat>
    requires |b| >= 6
  {
    var d3, d2, d1, d0 := HexValue(b[2]), HexValue(b[3]), HexValue(b[4]), HexValue(b[5]);
    if d3.Some? && d2.Some? && d1.Some? && d0.Some?
    then Some(4096 * d3.value + 256 * d2.value + 16 * d1.value + d0.value) else None
  }

  function ShortEscaped(letter: nat): Option<nat> {
    if letter == 0x62 then Some(0x08) else if letter == 0x74 then Some(0x09) else if letter == 0x6e then Some(0x0a)
    else if letter == 0x66 then Some(0x0c) else if letter == 0x72 then Some(0x0d)
    else if letter == QUOTE || letter == BACKSLASH then Some(letter) else None
  }

  /** The next code unit and how many bytes it took. */
  function NextUnit(b: Bytes): Option<(nat, nat)>
    ensures NextUnit(b).Some? ==> 0 < NextUnit(b).value.1 <= |b|
  {
    if b == [] then None
    else if b[0] != BACKSLASH then if b[0] == QUOTE then None else Some((b[0], 1))
    else if |b| > 1 && ShortEscaped(b[1]).Some? then Some((ShortEscaped(b[1]).value, 2))
    else if |b| > 5 && b[1] == 0x75 && LongEscape(b).Some? then Some((LongEscape(b).value, 6))
    else None
  }

  /** Code units up to the closing quote, and what follows it. */
  function ReadString(b: Bytes): Option<(seq<nat>, Bytes)>
    decreases |b|
  {
    if b == [] then None
    else if b[0] == QUOTE then Some(([], b[1..]))
    else
      match NextUnit(b)
      case None => None
      case Some((unit, used)) =>
        match ReadString(b[used..])
        case None => None
        case Some((units, rest)) => Some(([unit] + units, rest))
  }

  function ReadQuoted(b: Bytes, opening: Bytes): Option<(seq<nat>, Bytes)> {
    if opening <= b then ReadString(b[|opening|..]) else None
  }

  function Decode(b: Bytes): Option<Fields> {
    match ReadQuoted(b, [OPEN, QUOTE])
    case None => None
    case Some((version, afterVersion)) =>
      match ReadQuoted(afterVersion, [COMMA, QUOTE])
      case None => None
      case Some((worker, afterWorker)) =>
        match ReadQuoted(afterWorker, [COMMA, QUOTE])
        case None => None
        case Some((timestamp, end)) =>
          if end == [CLOSE] then Some(Fields(Join(version), Join(worker), Join(timestamp))) else None
  }

  lemma HexRoundTrip(digit: nat)
    requires digit < 16
    ensures HexValue(Hex(digit)) == Some(digit)
  {
  }

  /** Dividing by sixteen twice is dividing by the square. */
  lemma DivideAgain(unit: nat, d: nat)
    requires d == 16 || d == 256
    ensures unit / d / 16 == unit / (d * 16)
  {
  }

  lemma HexDigits(unit: nat)
    requires unit < 0x10000
    ensures unit / 4096 < 16
    ensures 4096 * (unit / 4096) + 256 * (unit / 256 % 16) + 16 * (unit / 16 % 16) + unit % 16 == unit
  {
    var a := unit / 16;
    var b := a / 16;
    var c := b / 16;
    DivideAgain(unit, 16);
    DivideAgain(unit, 256);
    assert unit == 16 * a + unit % 16;
    assert a == 16 * b + a % 16;
    assert b == 16 * c + b % 16;
  }

  lemma NextUnitOfEscape(unit: nat, rest: Bytes)
    requires unit < 0x10000
    ensures NextUnit(EscapeUnit(unit) + rest) == Some((unit, |EscapeUnit(unit)|))
    ensures EscapeUnit(unit) != [] && EscapeUnit(unit)[0] != QUOTE
  {
    var b := EscapeUnit(unit) + rest;
    if ShortEscape(unit).None? && !(0x20 <= unit <= 0x7e) {
      HexDigits(unit);
      HexRoundTrip(unit / 4096);
      HexRoundTrip(unit / 256 % 16);
      HexRoundTrip(unit / 16 % 16);
      HexRoundTrip(unit % 16);
      hide Hex, HexValue;
      assert LongEscape(b) == Some(unit);
    }
  }

  lemma {:induction false} ReadEscaped(units: seq<nat>, rest: Bytes)
    requires AreUnits(units)
    ensures ReadString(EscapedUnits(units) + [QUOTE] + rest) == Some((units, rest))
  {
    if units == [] {
      assert EscapedUnits(units) + [QUOTE] + rest == [QUOTE] + rest;
    } else {
      hide EscapeUnit, NextUnit, ReadString;
      var first, more := EscapeUnit(units[0]), EscapedUnits(units[1..]) + [QUOTE] + rest;
      ReadEscaped(units[1..], rest);
      NextUnitOfEscape(units[0], more);
      assert EscapedUnits(units) + [QUOTE] + rest == first + more;
      assert (first + more)[|first|..] == more;
      ReadStep(first + more, units[0], |first|, units[1..], rest);
      assert units == [units[0]] + units[1..];
    }
  }

  lemma ReadStep(b: Bytes, unit: nat, used: nat, units: seq<nat>, rest: Bytes)
    requires b != [] && b[0] != QUOTE && NextUnit(b) == Some((unit, used))
    requires ReadString(b[used..]) == Some((units, rest))
    ensures ReadString(b) == Some(([unit] + units, rest))
  {
  }

  lemma ReadQuotedString(s: Text, before: nat, rest: Bytes)
    requires IsText(s)
    ensures ReadQuoted([before] + Quoted(s, rest), [before, QUOTE]) == Some((Units(s), rest))
  {
    UnitsAreUnits(s);
    EscapedByUnits(s);
    ReadEscaped(Units(s), rest);
    QuotedTail(s, before, rest);
    hide ReadString, Units, Escaped, EscapedUnits, Quoted;
  }

  lemma QuotedTail(s: Text, before: nat, rest: Bytes)
    ensures [before, QUOTE] <= [before] + Quoted(s, rest)
    ensures ([before] + Quoted(s, rest))[2..] == Escaped(s) + [QUOTE] + rest
  {
    hide Escaped;
    assert Quoted(s, rest) == [QUOTE] + (Escaped(s) + [QUOTE] + rest);
    assert [before] + Quoted(s, rest) == [before, QUOTE] + (Escaped(s) + [QUOTE] + rest);
  }

  /** Decoding gives back the three strings with spelled-out surrogate pairs joined. */
  lemma DecodeCanonical(f: Fields)
    requires AreText(f)
    ensures Decode(Canonical(f)) == Some(JoinAll(f))
  {
    hide Join, Units, Quoted, ReadQuoted;
    ReadQuotedString(f.timestamp, COMMA, [CLOSE]);
    ReadQuotedString(f.worker, COMMA, [COMMA] + Quoted(f.timestamp, [CLOSE]));
    ReadQuotedString(f.version, OPEN, [COMMA] + Quoted(f.worker, [COMMA] + Quoted(f.timestamp, [CLOSE])));
  }

  /** A string survives the round trip exactly when it spells out no surrogate pair. */
  lemma JoinUnitsExact(s: Text)
    requires IsText(s)
    ensures Join(Units(s)) == s <==> NoPair(s)
  {
    JoinHasNoPair(Units(s));
    if NoPair(s) {
      JoinUnits(s);
    }
  }

  lemma JoinAllExact(f: Fields)
    requires AreText(f)
    ensures JoinAll(f) == f <==> NoPairs(f)
  {
    JoinUnitsExact(f.version);
    JoinUnitsExact(f.worker);
    JoinUnitsExact(f.timestamp);
    hide Join, Units, NoPair;
  }

  /** The fields survive the round trip exactly when none spells out a surrogate pair. */
  lemma CanonicalRoundTrip(f: Fields)
    requires AreText(f)
    ensures Decode(Canonical(f)) == Some(f) <==> NoPairs(f)
  {
    hide Decode, Canonical, JoinAll, NoPairs, AreText;
    DecodeCanonical(f);
    JoinAllExact(f);
  }

  lemma SameJoin(s: Text, s': Text)
    requires IsText(s) && IsText(s') && Join(Units(s)) == Join(Units(s'))
    ensures Units(s) == Units(s')
  {
    UnitsAreUnits(s);
    UnitsAreUnits(s');
    UnitsOfJoin(Units(s));
    UnitsOfJoin(Units(s'));
  }

  lemma SameJoinAll(f: Fields, g: Fields)
    requires AreText(f) && AreText(g) && JoinAll(f) == JoinAll(g)
    ensures SameUnits(f, g)
  {
    hide Join, Units, IsText;
    SameJoin(f.version, g.version);
    SameJoin(f.worker, g.worker);
    SameJoin(f.timestamp, g.timestamp);
  }

  lemma SameUnitsSameQuoted(s: Text, s': Text, rest: Bytes)
    requires Units(s) == Units(s')
    ensures Quoted(s, rest) == Quoted(s', rest)
  {
    hide Units, Escaped;
    EscapedByUnits(s);
    EscapedByUnits(s');
  }

  lemma SameUnitsSameMessage(f: Fields, g: Fields)
    requires SameUnits(f, g)
    ensures Canonical(f) == Canonical(g)
  {
    hide Units, Quoted;
    var afterWorker := [COMMA] + Quoted(f.timestamp, [CLOSE]);
    var afterVersion := [COMMA] + Quoted(f.worker, afterWorker);
    SameUnitsSameQuoted(f.timestamp, g.timestamp, [CLOSE]);
    SameUnitsSameQuoted(f.worker, g.worker, afterWorker);
    SameUnitsSameQuoted(f.version, g.version, afterVersion);
  }

  /** Two tuples share a message exactly when they are the same UTF-16 text. */
  lemma SameMessage(f: Fields, g: Fields)
    requires AreText(f) && AreText(g)
    ensures Canonical(f) == Canonical(g) <==> SameUnits(f, g)
  {
    hide Canonical, Decode, SameUnits, JoinAll, AreText;
    DecodeCanonical(f);
    DecodeCanonical(g);
    if Canonical(f) == Canonical(g) {
      SameJoinAll(f, g);
    } else if SameUnits(f, g) {
      SameUnitsSameMessage(f, g);
    }
  }

  /** The signing message is unambiguous wherever no surrogate pair is spelled out. */
  lemma CanonicalInjective(f: Fields, g: Fields)
    requires AreText(f) && AreText(g) && NoPairs(f) && NoPairs(g)
    ensures Canonical(f) == Canonical(g) <==> f == g
  {
    hide Canonical, Decode, AreText, NoPairs;
    CanonicalRoundTrip(f);
    CanonicalRoundTrip(g);
  }

  /** Elsewhere it is not: fields that spell one out share their message with different fields. */
  lemma SpelledOutPairCollides(f: Fields)
    requires AreText(f) && !NoPairs(f)
    ensures AreText(JoinAll(f)) && JoinAll(f) != f && Canonical(f) == Canonical(JoinAll(f))
  {
    JoinAllExact(f);
    JoinKeepsUnits(f.version);
    JoinKeepsUnits(f.worker);
    JoinKeepsUnits(f.timestamp);
    hide Canonical, Join, Units, IsText, NoPairs;
    SameUnitsSameMessage(f, JoinAll(f));
  }

  lemma JoinKeepsUnits(s: Text)
    requires IsText(s)
    ensures IsText(Join(Units(s))) && Units(Join(Units(s))) == Units(s)
  {
    UnitsAreUnits(s);
    UnitsOfJoin(Units(s));
  }

  lemma CollisionExample(f: Fields)
    ensures Canonical(f.(worker := [0xd83d, 0xde00])) == Canonical(f.(worker := [0x1f600]))
  {
    var spelled, one: Text := [0xd83d, 0xde00], [0x1f600];
    assert spelled[1..] == [0xde00] && one[1..] == [];
    assert Units(spelled) == [0xd83d, 0xde00] && Units(one) == [0xd83d, 0xde00];
    SameUnitsSameMessage(f.(worker := spelled), f.(worker := one));
  }

  ghost predicate Printable(b: Bytes) {
    forall i :: 0 <= i < |b| ==> 0x20 <= b[i] <= 0x7e
  }

  lemma EscapePrintable(c: nat)
    requires c < 0x110000
    ensures Printable(Escape(c))
  {
    hide EscapeUnit, High, Low;
    if c < 0x10000 {
      EscapeUnitPrintable(c);
    } else {
      PairInRange(c);
      EscapeUnitPrintable(High(c));
      EscapeUnitPrintable(Low(c));
    }
  }

  lemma PairInRange(c: nat)
    requires 0x10000 <= c < 0x110000
    ensures IsHigh(High(c)) && IsLow(Low(c))
  {
  }

  lemma EscapeUnitPrintable(unit: nat)
    requires unit < 0x10000
    ensures Printable(EscapeUnit(unit))
  {
    HexDigits(unit);
  }

  lemma {:induction false} EscapedPrintable(s: Text)
    requires IsText(s)
    ensures Printable(Escaped(s))
  {
    if s != [] {
      EscapePrintable(s[0]);
      EscapedPrintable(s[1..]);
      hide Escape;
    }
  }

  /** The message is printable ASCII, whatever the fields hold. */
  lemma CanonicalPrintable(f: Fields)
    requires AreText(f)
    ensures Printable(Canonical(f))
  {
    hide Quoted, Printable;
    var last := [CLOSE];
    CharPrintable(CLOSE, []);
    QuotedPrintable(f.timestamp, last);
    var afterWorker := [COMMA] + Quoted(f.timestamp, last);
    CharPrintable(COMMA, Quoted(f.timestamp, last));
    QuotedPrintable(f.worker, afterWorker);
    var afterVersion := [COMMA] + Quoted(f.worker, afterWorker);
    CharPrintable(COMMA, Quoted(f.worker, afterWorker));
    QuotedPrintable(f.version, afterVersion);
    CharPrintable(OPEN, Quoted(f.version, afterVersion));
  }

  lemma CharPrintable(c: nat, rest: Bytes)
    requires 0x20 <= c <= 0x7e && (rest == [] || Printable(rest))
    ensures Printable([c] + rest)
    ensures rest == [] ==> Printable([c])
  {
  }

  lemma QuotedPrintable(s: Text, rest: Bytes)
    requires IsText(s) && Printable(rest)
    ensures Printable(Quoted(s, rest))
  {
    hide Escaped;
    EscapedPrintable(s);
  }

  /** ASCII bytes. */
  function Ascii(text: string): Bytes {
    seq(|text|, i requires 0 <= i < |text| => text[i] as nat)
  }

  lemma EscapedCons(s: Text)
    requires s != []
    ensures Escaped(s) == Escape(s[0]) + Escaped(s[1..])
  {
  }

  lemma Regroup(a: Bytes, b: Bytes, c: Bytes)
    ensures a + (b + c) == a + b + c
  {
  }

  /** Text is escaped character by character. */
  lemma {:induction false} EscapedConcat(a: Text, b: Text)
    ensures Escaped(a + b) == Escaped(a) + Escaped(b)
  {
    hide Escaped, Escape;
    if a == [] {
      assert a + b == b && Escaped(a) == [] by { EscapedNothing(); }
    } else {
      EscapedConcat(a[1..], b);
      assert (a + b)[1..] == a[1..] + b;
      EscapedCons(a);
      EscapedCons(a + b);
      Regroup(Escape(a[0]), Escaped(a[1..]), Escaped(b));
    }
  }

  lemma EscapedNothing()
    ensures Escaped([]) == []
  {
  }

  /** Printable text with no quote or backslash is written as it is. */
  lemma {:induction false} EscapedPlain(s: Text)
    requires forall i :: 0 <= i < |s| ==> 0x20 <= s[i] <= 0x7e && s[i] != QUOTE && s[i] != BACKSLASH
    ensures Escaped(s) == s
  {
    if s != [] {
      EscapedPlain(s[1..]);
      assert s == [s[0]] + s[1..];
    }
  }

  lemma EscapedOnce(c: nat)
    ensures Escaped([c]) == Escape(c)
  {
    assert [c][1..] == [];
  }

  /** A quote, a backslash and a newline have short escapes. */
  lemma ShortEscapesExample()
    ensures Escaped([0x22]) == Ascii("\\\"") && Escaped([0x5c]) == Ascii("\\\\") && Escaped([0x0a]) == Ascii("\\n")
  {
    EscapedOnce(0x22);
    EscapedOnce(0x5c);
    EscapedOnce(0x0a);
    hide Escaped;
  }

  lemma PairExample()
    ensures EscapeUnit(0xe9) == Ascii("\\u00e9")
    ensures EscapeUnit(0xd83d) == Ascii("\\ud83d")
    ensures EscapeUnit(0xde00) == Ascii("\\ude00")
  {
  }

  /** Beyond ASCII a character is its UTF-16 units in lower-case hexadecimal. */
  lemma UnitsExample()
    ensures Escaped([0xe9]) == Ascii("\\u00e9")
    ensures Escaped([0x1f600]) == Ascii("\\ud83d") + Ascii("\\ude00")
  {
    hide Escaped;
    EscapedOnce(0xe9);
    EscapedOnce(0x1f600);
    PairExample();
    hide EscapeUnit;
    assert Escape(0x1f600) == EscapeUnit(0xd83d) + EscapeUnit(0xde00);
  }

  /** The three fields stand in order, in a compact list of quoted strings. */
  lemma CanonicalShape(f: Fields)
    ensures Canonical(f)
         == Ascii("[\"") + Escaped(f.version) + Ascii("\",\"") + Escaped(f.worker) + Ascii("\",\"")
            + Escaped(f.timestamp) + Ascii("\"]")
  {
    hide Escaped;
    assert Ascii("[\"") == [OPEN, QUOTE] && Ascii("\",\"") == [QUOTE, COMMA, QUOTE] && Ascii("\"]") == [QUOTE, CLOSE];
  }

  // ---- signing and verifying ----

  /** HMAC-SHA256 in hexadecimal, of a secret and a message. */
  type Mac = (Text, Bytes) -> Text

  /** `repr(float(timestamp))`. */
  type Repr = real -> Text

  datatype Claim = Claim(version: Text, worker: Text, timestamp: real)

  datatype Verdict = Valid | WrongVersion | Stale | FromTheFuture | BadSignature | TokenNotAscii

  datatype Verifier = Verifier(secrets: seq<Text>, expectedVersion: Option<Text>, maxAge: real)

  function FieldsOf(repr: Repr, claim: Claim): Fields {
    Fields(claim.version, claim.worker, repr(claim.timestamp))
  }

  function Message(repr: Repr, claim: Claim): Bytes {
    Canonical(FieldsOf(repr, claim))
  }

  /** `sign_membership`. */
  function Sign(mac: Mac, repr: Repr, claim: Claim, secret: Text): Text {
    mac(secret, Message(repr, claim))
  }

  /** What a signature covers: the three fields in order, quoted, as a compact list. */
  lemma SignedText(mac: Mac, repr: Repr, claim: Claim, secret: Text)
    ensures Sign(mac, repr, claim, secret)
         == mac(secret, Ascii("[\"") + Escaped(claim.version) + Ascii("\",\"") + Escaped(claim.worker)
                        + Ascii("\",\"") + Escaped(repr(claim.timestamp)) + Ascii("\"]"))
  {
    CanonicalShape(FieldsOf(repr, claim));
    hide Canonical;
  }

  predicate AnySigns(mac: Mac, repr: Repr, secrets: seq<Text>, token: Text, claim: Claim) {
    exists i :: 0 <= i < |secrets| && Sign(mac, repr, claim, secrets[i]) == token
  }

  /** `MembershipVerifier.verify` at time `now`; a token with non-ASCII text makes the comparison raise. */
  function Verify(v: Verifier, mac: Mac, repr: Repr, now: real, token: Text, claim: Claim): Verdict {
    if v.expectedVersion.Some? && claim.version != v.expectedVersion.value then WrongVersion
    else if now - claim.timestamp > v.maxAge then Stale
    else if now - claim.timestamp < -v.maxAge then FromTheFuture
    else if exists i :: 0 <= i < |token| && token[i] > 0x7f then TokenNotAscii
    else if AnySigns(mac, repr, v.secrets, token, claim) then Valid
    else BadSignature
  }

  /** A signed claim is accepted, under any secret of the rotation, exactly while current and in the window. */
  lemma SignedIsAccepted(v: Verifier, mac: Mac, repr: Repr, now: real, claim: Claim, i: nat)
    requires i < |v.secrets|
    requires var token := Sign(mac, repr, claim, v.secrets[i]);
             forall j :: 0 <= j < |token| ==> token[j] <= 0x7f
    ensures Verify(v, mac, repr, now, Sign(mac, repr, claim, v.secrets[i]), claim) == Valid
       <==> (v.expectedVersion.Some? ==> claim.version == v.expectedVersion.value)
            && -v.maxAge <= now - claim.timestamp <= v.maxAge
  {
  }

  /**
   What a claim is refused for: first its version, then its age, past the bound either way, and only
   then its token; a bound below zero refuses every age.
   */
  lemma RefusedFor(v: Verifier, mac: Mac, repr: Repr, now: real, token: Text, claim: Claim)
    ensures var verdict, age := Verify(v, mac, repr, now, token, claim), now - claim.timestamp;
            && (verdict.WrongVersion? <==> v.expectedVersion.Some? && claim.version != v.expectedVersion.value)
            && (!verdict.WrongVersion? ==>
                  && (verdict.Stale? <==> v.maxAge < age)
                  && (verdict.FromTheFuture? <==> age <= v.maxAge && age < -v.maxAge)
                  && (v.maxAge < 0.0 ==> verdict.Stale? || verdict.FromTheFuture?))
  {
  }

  ghost predicate CollisionFree(mac: Mac) {
    forall s, m, s', m' :: mac(s, m) == mac(s', m') ==> m == m'
  }

  /**
   A token signed for one claim is accepted for another exactly when the two are the same UTF-16
   text, the secret is still in the rotation or signs alike, and the other claim is current and
   in the window.
   */
  lemma TokenBindsText(
    v: Verifier, mac: Mac, repr: Repr, now: real, signed: Claim, i: nat, claim: Claim)
    requires i < |v.secrets| && CollisionFree(mac)
    requires AreText(FieldsOf(repr, signed)) && AreText(FieldsOf(repr, claim))
    requires var token := Sign(mac, repr, signed, v.secrets[i]);
             forall j :: 0 <= j < |token| ==> token[j] <= 0x7f
    ensures Verify(v, mac, repr, now, Sign(mac, repr, signed, v.secrets[i]), claim) == Valid
       <==> SameUnits(FieldsOf(repr, signed), FieldsOf(repr, claim))
            && (v.expectedVersion.Some? ==> claim.version == v.expectedVersion.value)
            && -v.maxAge <= now - claim.timestamp <= v.maxAge
  {
    hide Canonical, SameUnits, AreText;
    SameMessage(FieldsOf(repr, signed), FieldsOf(repr, claim));
    var token := Sign(mac, repr, signed, v.secrets[i]);
    if AnySigns(mac, repr, v.secrets, token, claim) {
      var k :| 0 <= k < |v.secrets| && Sign(mac, repr, claim, v.secrets[k]) == token;
      assert Message(repr, claim) == Message(repr, signed);
    } else {
      assert Sign(mac, repr, claim, v.secrets[i]) != token;
    }
  }

  /** On the timestamps a float can hold, different decimal forms are written for different values. */
  ghost predicate TellsApart(repr: Repr, floats: iset<real>) {
    forall t, t' :: t in floats && t' in floats && repr(t) == repr(t') ==> t == t'
  }

  /**
   So where no surrogate pair is spelled out, and both timestamps are floats that their decimal
   forms tell apart, it is accepted for no other claim.
   */
  lemma TokenBindsClaim(
    v: Verifier, mac: Mac, repr: Repr, floats: iset<real>, now: real, signed: Claim, secret: Text, claim: Claim)
    requires CollisionFree(mac) && TellsApart(repr, floats)
    requires signed.timestamp in floats && AreText(FieldsOf(repr, signed)) && NoPairs(FieldsOf(repr, signed))
    requires claim.timestamp in floats && AreText(FieldsOf(repr, claim)) && NoPairs(FieldsOf(repr, claim))
    requires Verify(v, mac, repr, now, Sign(mac, repr, signed, secret), claim) == Valid
    ensures claim == signed
  {
    hide Canonical, NoPairs, AreText;
    var token := Sign(mac, repr, signed, secret);
    var i :| 0 <= i < |v.secrets| && Sign(mac, repr, claim, v.secrets[i]) == token;
    CanonicalInjective(FieldsOf(repr, signed), FieldsOf(repr, claim));
    assert repr(claim.timestamp) == FieldsOf(repr, claim).timestamp == repr(signed.timestamp);
  }
}
