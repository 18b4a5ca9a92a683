/**
 JSON strings: the quoting of JSON.stringify, which escapes lone surrogates, and the string reader
 of JSON.parse (section 7 of RFC 8259).
 */
module JsonString {
  import opened Wrappers
  import opened JsonNumber

  const QUOTE: Unit := 0x22
  const BACKSLASH: Unit := 0x5C
  const LOWER_U: Unit := 0x75

  /** The text of a source literal made of ASCII characters. */
  function Ascii(s: string): (t: Text)
    ensures |t| == |s|
  {
    seq(|s|, i requires 0 <= i < |s| => if s[i] < 128 as char then s[i] as int as Unit else 0xFFFD)
  }

  predicate High(u: Unit) {
    0xD800 <= u < 0xDC00
  }

  predicate Low(u: Unit) {
    0xDC00 <= u < 0xE000
  }

  predicate Surrogate(u: Unit) {
    0xD800 <= u < 0xE000
  }

  predicate PairAt(s: Text) {
    2 <= |s| && High(s[0]) && Low(s[1])
  }

  // ----- hexadecimal escapes

  function HexUnit(v: int): Unit
    requires 0 <= v < 16
  {
    if v < 10 then (0x30 + v) as Unit else (0x57 + v) as Unit
  }

  function HexValue(u: Unit): (v: Option<int>)
    ensures v.Some? ==> 0 <= v.value < 16
  {
    if 0x30 <= u <= 0x39 then Some(u as int - 0x30)
    else if 0x61 <= u <= 0x66 then Some(u as int - 0x57)
    else if 0x41 <= u <= 0x46 then Some(u as int - 0x37)
    else None
  }

  function HexEscape(u: Unit): (t: Text)
    ensures |t| == 6
  {
    var v := u as int;
    [BACKSLASH, LOWER_U, HexUnit(v / 16 / 16 / 16), HexUnit(v / 16 / 16 % 16), HexUnit(v / 16 % 16), HexUnit(v % 16)]
  }

  function ReadHex(t: Text): Option<Unit>
    requires 4 <= |t|
  {
    var a, b, c, d := HexValue(t[0]), HexValue(t[1]), HexValue(t[2]), HexValue(t[3]);
    if a.Some? && b.Some? && c.Some? && d.Some?
    then Some((((a.value * 16 + b.value) * 16 + c.value) * 16 + d.value) as Unit)
    else None
  }

  lemma HexDigitReadsBack(v: int)
    requires 0 <= v < 16
    ensures HexValue(HexUnit(v)) == Some(v)
  {
  }

  lemma HexReadsBack(u: Unit)
    ensures ReadHex(HexEscape(u)[2..]) == Some(u)
  {
    var v := u as int;
    var (x, y, z) := (v / 16, v / 16 / 16, v / 16 / 16 / 16);
    assert v == 16 * x + v % 16 && x == 16 * y + x % 16 && y == 16 * z + y % 16;
    HexDigitReadsBack(z);
    HexDigitReadsBack(y % 16);
    HexDigitReadsBack(x % 16);
    HexDigitReadsBack(v % 16);
  }

  // ----- printing

  /** The letter after the backslash of a two-unit escape. */
  function ShortEscape(u: Unit): Option<Unit> {
    if u == QUOTE || u == BACKSLASH then Some(u)
    else if u == 8 then Some(0x62)
    else if u == 12 then Some(0x66)
    else if u == 10 then Some(0x6E)
    else if u == 13 then Some(0x72)
    else if u == 9 then Some(0x74)
    else None
  }

  function EscapeUnit(u: Unit): Text {
    match ShortEscape(u)
    case Some(letter) => [BACKSLASH, letter]
    case None => if u < 0x20 || Surrogate(u) then HexEscape(u) else [u]
  }

  function Escaped(s: Text): Text {
    if s == [] then []
    else if PairAt(s) then s[..2] + Escaped(s[2..])
    else EscapeUnit(s[0]) + Escaped(s[1..])
  }

  function Quoted(s: Text): Text {
    [QUOTE] + Escaped(s) + [QUOTE]
  }

  // ----- reading

  function Unescape(letter: Unit): Option<Unit> {
    if letter == QUOTE || letter == BACKSLASH || letter == 0x2F then Some(letter)
    else if letter == 0x62 then Some(8)
    else if letter == 0x66 then Some(12)
    else if letter == 0x6E then Some(10)
    else if letter == 0x72 then Some(13)
    else if letter == 0x74 then Some(9)
    else None
  }

  /** One unit of the string's value and how many units of text spell it; None when malformed. */
  function ReadUnit(t: Text): (r: Option<(Unit, nat)>)
    requires t != []
    ensures r.Some? ==> 0 < r.value.1 <= |t|
  {
    if t[0] < 0x20 then None
    else if t[0] != BACKSLASH then Some((t[0], 1))
    else if |t| < 2 then None
    else if t[1] == LOWER_U then
      if |t| < 6 then None
      else match ReadHex(t[2..])
        case None => None
        case Some(u) => Some((u, 6))
    else match Unescape(t[1])
      case None => None
      case Some(u) => Some((u, 2))
  }

  function Cons(u: Unit, r: Option<(Text, Text)>): Option<(Text, Text)> {
    match r
    case None => None
    case Some((s, rest)) => Some(([u] + s, rest))
  }

  /** The string whose opening quote has been consumed, and the text after its closing quote. */
  function ReadString(t: Text): (r: Option<(Text, Text)>)
    ensures r.Some? ==> |r.value.1| < |t|
    decreases |t|
  {
    if t == [] then None
    else if t[0] == QUOTE then Some(([], t[1..]))
    else match ReadUnit(t)
      case None => None
      case Some((u, n)) => Cons(u, ReadString(t[n..]))
  }

  // ----- reading back what was printed

  lemma EscapeReadsBack(u: Unit, rest: Text)
    ensures var t := EscapeUnit(u) + rest;
            t[0] != QUOTE && ReadUnit(t) == Some((u, |EscapeUnit(u)|)) && t[|EscapeUnit(u)|..] == rest
  {
    var t := EscapeUnit(u) + rest;
    if ShortEscape(u).None? && (u < 0x20 || Surrogate(u)) {
      HexReadsBack(u);
      assert t[2..][..4] == HexEscape(u)[2..];
    }
  }

  lemma ReadStep(t: Text, u: Unit, n: nat)
    requires t != [] && t[0] != QUOTE && ReadUnit(t) == Some((u, n))
    ensures ReadString(t) == Cons(u, ReadString(t[n..]))
  {
  }

  lemma UnitReadsBack(u: Unit, rest: Text)
    ensures ReadString(EscapeUnit(u) + rest) == Cons(u, ReadString(rest))
  {
    EscapeReadsBack(u, rest);
    ReadStep(EscapeUnit(u) + rest, u, |EscapeUnit(u)|);
  }

  lemma PlainReadsBack(u: Unit, rest: Text)
    requires u >= 0x20 && u != QUOTE && u != BACKSLASH
    ensures ReadString([u] + rest) == Cons(u, ReadString(rest))
  {
    assert ([u] + rest)[1..] == rest;
  }

  lemma UnitCase(s: Text, tail: Text)
    requires s != [] && !PairAt(s)
    ensures ReadString(Escaped(s) + tail) == Cons(s[0], ReadString(Escaped(s[1..]) + tail))
  {
    assert Escaped(s) + tail == EscapeUnit(s[0]) + (Escaped(s[1..]) + tail);
    UnitReadsBack(s[0], Escaped(s[1..]) + tail);
  }

  lemma PairCase(s: Text, tail: Text)
    requires PairAt(s)
    ensures ReadString(Escaped(s) + tail) == Cons(s[0], Cons(s[1], ReadString(Escaped(s[2..]) + tail)))
  {
    var inner := Escaped(s[2..]) + tail;
    assert Escaped(s) + tail == [s[0]] + ([s[1]] + inner);
    PlainReadsBack(s[1], inner);
    PlainReadsBack(s[0], [s[1]] + inner);
  }

  /** Quoting a string and reading the text back gives the same string, whatever follows. */
  lemma {:induction false} StringReadsBack(s: Text, rest: Text)
    ensures ReadString(Escaped(s) + ([QUOTE] + rest)) == Some((s, rest))
    decreases |s|
  {
    var tail := [QUOTE] + rest;
    if s == [] {
      assert Escaped(s) + tail == tail && tail[1..] == rest;
    } else if PairAt(s) {
      PairCase(s, tail);
      StringReadsBack(s[2..], rest);
      assert [s[0]] + ([s[1]] + s[2..]) == s;
    } else {
      UnitCase(s, tail);
      StringReadsBack(s[1..], rest);
      assert [s[0]] + s[1..] == s;
    }
  }

  // ----- what is printed can be sent

  /** Every surrogate belongs to a pair, so UTF-8 has bytes for the text and gives it back. */
  predicate WellPaired(t: Text)
    decreases |t|
  {
    t == [] || (if PairAt(t) then WellPaired(t[2..]) else !Surrogate(t[0]) && WellPaired(t[1..]))
  }

  /** Well-formed UTF-16 without control characters. */
  predicate Sendable(t: Text) {
    WellPaired(t) && forall i :: 0 <= i < |t| ==> t[i] >= 0x20
  }

  lemma {:induction false} PairedParts(a: Text, b: Text)
    requires WellPaired(a) && WellPaired(b)
    ensures WellPaired(a + b)
    decreases |a|
  {
    if a == [] {
      assert a + b == b;
    } else if PairAt(a) {
      PairedParts(a[2..], b);
      assert (a + b)[2..] == a[2..] + b;
    } else {
      PairedParts(a[1..], b);
      assert (a + b)[1..] == a[1..] + b;
    }
  }

  lemma SendableParts(a: Text, b: Text)
    requires Sendable(a) && Sendable(b)
    ensures Sendable(a + b)
  {
    PairedParts(a, b);
    hide WellPaired;
  }

  lemma {:induction false} PlainIsSendable(t: Text)
    requires forall i :: 0 <= i < |t| ==> t[i] >= 0x20 && !Surrogate(t[i])
    ensures Sendable(t)
    decreases |t|
  {
    if t != [] { PlainIsSendable(t[1..]); }
  }

  /** Whatever a string holds, lone surrogates and controls included, its quoted text can be sent. */
  lemma QuotedIsSendable(s: Text)
    ensures Sendable(Quoted(s))
  {
    EscapedIsSendable(s);
    PlainIsSendable([QUOTE]);
    hide Sendable, Escaped;
    SendableParts([QUOTE], Escaped(s));
    SendableParts([QUOTE] + Escaped(s), [QUOTE]);
  }

  lemma {:induction false} EscapedIsSendable(s: Text)
    ensures Sendable(Escaped(s))
    decreases |s|
  {
    if s == [] {
    } else if PairAt(s) {
      EscapedIsSendable(s[2..]);
      PairIsSendable(s[..2]);
      SendableParts(s[..2], Escaped(s[2..]));
    } else {
      EscapedIsSendable(s[1..]);
      EscapeIsPlain(s[0]);
      SendableParts(EscapeUnit(s[0]), Escaped(s[1..]));
    }
  }

  lemma PairIsSendable(t: Text)
    requires |t| == 2 && PairAt(t)
    ensures Sendable(t)
  {
    assert t[2..] == [] && WellPaired([]);
  }

  lemma EscapeIsPlain(u: Unit)
    ensures Sendable(EscapeUnit(u))
  {
    assert 0 <= u as int / 16 / 16 / 16 < 16;
    PlainIsSendable(EscapeUnit(u));
  }

  lemma {:induction false} PlainIsItself(s: Text)
    requires forall i :: 0 <= i < |s| ==> s[i] >= 0x20 && s[i] != QUOTE && s[i] != BACKSLASH && !Surrogate(s[i])
    ensures Escaped(s) == s
    decreases |s|
  {
    if s != [] {
      PlainIsItself(s[1..]);
      PlainStays(s[0]);
      assert !PairAt(s);
      assert Escaped(s) == EscapeUnit(s[0]) + Escaped(s[1..]);
      hide Escaped, EscapeUnit;
    }
  }

  lemma PlainStays(u: Unit)
    requires u >= 0x20 && u != QUOTE && u != BACKSLASH && !Surrogate(u)
    ensures EscapeUnit(u) == [u]
  {
  }

  /** Text without quotes, backslashes, controls and surrogates is quoted as it is. */
  lemma PlainIsKept(s: Text)
    requires forall i :: 0 <= i < |s| ==> s[i] >= 0x20 && s[i] != QUOTE && s[i] != BACKSLASH && !Surrogate(s[i])
    ensures Quoted(s) == [QUOTE] + s + [QUOTE]
  {
    PlainIsItself(s);
  }
}
