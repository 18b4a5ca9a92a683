/**
 UTF-16 text and the JSON number grammar: Number::toString for finite numbers, given by their
 shortest decimal digits, and the number reader of JSON.parse (section 6 of RFC 8259).
 */
module JsonNumber {
  import opened Wrappers

  /** A UTF-16 code unit; program strings are sequences of these. */
  newtype Unit = u: int | 0 <= u < 0x1_0000

  type Text = seq<Unit>

  const ZERO: Unit := 0x30
  const MINUS: Unit := 0x2D
  const PLUS: Unit := 0x2B
  const DOT: Unit := 0x2E
  const LOWER_E: Unit := 0x65
  const UPPER_E: Unit := 0x45

  type Digit = d: int | 0 <= d <= 9

  /** A finite number: zero (of either sign) or 0.d1d2...dk times ten to the power `point`. */
  datatype Decimal = Nought | Dec(negative: bool, digits: seq<Digit>, point: int)

  predicate NumberOk(d: Decimal) {
    d.Dec? ==> d.digits != [] && d.digits[0] != 0 && d.digits[|d.digits| - 1] != 0
  }

  function Zeros(n: nat): (ds: seq<Digit>) {
    seq(n, _ => 0)
  }

  predicate IsDigit(u: Unit) {
    0x30 <= u <= 0x39
  }

  function DigitUnit(d: Digit): Unit {
    (0x30 + d as int) as Unit
  }

  function UnitDigit(u: Unit): Digit
    requires IsDigit(u)
  {
    u as int - 0x30
  }

  function DigitsText(ds: seq<Digit>): (t: Text)
    ensures |t| == |ds| && forall i :: 0 <= i < |t| ==> t[i] == DigitUnit(ds[i])
  {
    seq(|ds|, i requires 0 <= i < |ds| => DigitUnit(ds[i]))
  }

  function DigitValues(t: Text): (ds: seq<Digit>)
    requires forall i :: 0 <= i < |t| ==> IsDigit(t[i])
    ensures |ds| == |t| && forall i :: 0 <= i < |t| ==> ds[i] == UnitDigit(t[i])
  {
    seq(|t|, i requires 0 <= i < |t| => UnitDigit(t[i]))
  }

  function NatDigits(n: nat): (ds: seq<Digit>)
    ensures ds != [] && NatValue(ds) == n
  {
    if n < 10 then [n] else NatDigits(n / 10) + [n % 10]
  }

  function NatValue(ds: seq<Digit>): nat {
    if ds == [] then 0 else 10 * NatValue(ds[..|ds| - 1]) + ds[|ds| - 1]
  }

  // ----- printing

  function Sign(negative: bool): Text {
    if negative then [MINUS] else []
  }

  function FractionText(frac: seq<Digit>): Text {
    if frac == [] then [] else [DOT] + DigitsText(frac)
  }

  function ExponentText(e: int): Text {
    if e == 0 then [] else if e < 0 then [LOWER_E, MINUS] + DigitsText(NatDigits(-e))
        else [LOWER_E, PLUS] + DigitsText(NatDigits(e))
  }

  /** The digits and exponent of a number as written. */
  datatype Parts = Parts(whole: seq<Digit>, frac: seq<Digit>, exponent: int)

  /** The layout Number::toString chooses for the digits and the position of the point. */
  function Layout(digits: seq<Digit>, point: int): Parts
    requires digits != []
  {
    if |digits| <= point <= 21 then Parts(digits + Zeros(point - |digits|), [], 0)
    else if 0 < point <= 21 then Parts(digits[..point], digits[point..], 0)
    else if -6 < point <= 0 then Parts([0], Zeros(-point) + digits, 0)
    else Parts([digits[0]], digits[1..], point - 1)
  }

  function PartsText(negative: bool, p: Parts): Text {
    Sign(negative) + DigitsText(p.whole) + FractionText(p.frac) + ExponentText(p.exponent)
  }

  function NumberText(d: Decimal): Text
    requires NumberOk(d)
  {
    match d
    case Nought => [ZERO]
    case Dec(negative, digits, point) => PartsText(negative, Layout(digits, point))
  }

  // ----- reading

  function DigitRun(t: Text): (n: nat)
    ensures n <= |t| && forall i :: 0 <= i < n ==> IsDigit(t[i])
    ensures n < |t| ==> !IsDigit(t[n])
  {
    if t == [] || !IsDigit(t[0]) then 0 else 1 + DigitRun(t[1..])
  }

  function ReadFraction(t: Text): (r: Option<(seq<Digit>, Text)>)
    ensures r.Some? ==> |r.value.1| <= |t|
  {
    if t == [] || t[0] != DOT then Some(([], t))
    else
      var n := DigitRun(t[1..]);
      if n == 0 then None else Some((DigitValues(t[1..][..n]), t[1..][n..]))
  }

  function ReadExponent(t: Text): (r: Option<(int, Text)>)
    ensures r.Some? ==> |r.value.1| <= |t|
  {
    if t == [] || (t[0] != LOWER_E && t[0] != UPPER_E) then Some((0, t))
    else
      var signed := 1 < |t| && (t[1] == MINUS || t[1] == PLUS);
      var u := if signed then t[2..] else t[1..];
      var n := DigitRun(u);
      if n == 0 then None
      else
        var e: int := NatValue(DigitValues(u[..n]));
        Some((if signed && t[1] == MINUS then -e else e, u[n..]))
  }

  function Normalize(negative: bool, ds: seq<Digit>, point: int): (d: Decimal)
    ensures NumberOk(d)
    decreases |ds|
  {
    if ds == [] then Nought
    else if ds[0] == 0 then Normalize(negative, ds[1..], point - 1)
    else if ds[|ds| - 1] == 0 then Normalize(negative, ds[..|ds| - 1], point)
    else Dec(negative, ds, point)
  }

  function ReadUnsigned(u: Text): (r: Option<(Parts, Text)>)
    ensures r.Some? ==> |r.value.1| < |u|
  {
    var n := DigitRun(u);
    if n == 0 || (u[0] == ZERO && n > 1) then None
    else match ReadFraction(u[n..])
      case None => None
      case Some(f) =>
        match ReadExponent(f.1)
        case None => None
        case Some(e) => Some((Parts(DigitValues(u[..n]), f.0, e.0), e.1))
  }

  function Valued(negative: bool, r: Option<(Parts, Text)>): (v: Option<(Decimal, Text)>)
    ensures v.Some? ==> r.Some? && v.value.1 == r.value.1 && NumberOk(v.value.0)
  {
    match r
    case None => None
    case Some((p, rest)) => Some((Normalize(negative, p.whole + p.frac, |p.whole| + p.exponent), rest))
  }

  function ReadNumber(t: Text): (r: Option<(Decimal, Text)>)
    ensures r.Some? ==> |r.value.1| < |t| && NumberOk(r.value.0)
  {
    if t != [] && t[0] == MINUS then Valued(true, ReadUnsigned(t[1..])) else Valued(false, ReadUnsigned(t))
  }

  // ----- reading back what was printed

  /** Nothing that could continue a number follows. */
  predicate Delimited(rest: Text) {
    rest == [] || (!IsDigit(rest[0]) && rest[0] != DOT && rest[0] != LOWER_E && rest[0] != UPPER_E)
  }

  predicate EndsDigits(rest: Text) {
    rest == [] || !IsDigit(rest[0])
  }

  lemma {:induction false} DigitRunCounts(ds: seq<Digit>, rest: Text)
    requires EndsDigits(rest)
    ensures DigitRun(DigitsText(ds) + rest) == |ds|
  {
    var t := DigitsText(ds) + rest;
    if ds == [] {
      assert t == rest;
    } else {
      DigitRunCounts(ds[1..], rest);
      assert t[1..] == DigitsText(ds[1..]) + rest;
    }
  }

  lemma DigitRunStops(ds: seq<Digit>, rest: Text)
    requires EndsDigits(rest)
    ensures var t := DigitsText(ds) + rest;
            DigitRun(t) == |ds| && DigitValues(t[..|ds|]) == ds && t[|ds|..] == rest
  {
    DigitRunCounts(ds, rest);
    assert (DigitsText(ds) + rest)[..|ds|] == DigitsText(ds);
  }

  lemma FractionReadsBack(frac: seq<Digit>, rest: Text)
    requires EndsDigits(rest) && (rest == [] || rest[0] != DOT)
    ensures ReadFraction(FractionText(frac) + rest) == Some((frac, rest))
  {
    if frac == [] {
      assert FractionText(frac) + rest == rest;
    } else {
      DigitRunStops(frac, rest);
      assert (FractionText(frac) + rest)[1..] == DigitsText(frac) + rest && (FractionText(frac) + rest)[0] == DOT;
      hide FractionText, DigitRun, DigitsText, EndsDigits;
    }
  }

  lemma SignedExponentReadsBack(sign: Unit, n: nat, rest: Text)
    requires (sign == MINUS || sign == PLUS) && EndsDigits(rest)
    ensures ReadExponent([LOWER_E, sign] + DigitsText(NatDigits(n)) + rest)
        == Some((if sign == MINUS then 0 - n as int else n as int, rest))
  {
    var t := [LOWER_E, sign] + DigitsText(NatDigits(n)) + rest;
    var u := DigitsText(NatDigits(n)) + rest;
    assert t[2..] == u;
    DigitRunStops(NatDigits(n), rest);
    hide DigitRun, DigitsText, NatDigits, EndsDigits;
  }

  lemma ExponentReadsBack(e: int, rest: Text)
    requires Delimited(rest)
    ensures ReadExponent(ExponentText(e) + rest) == Some((e, rest))
  {
    if e == 0 {
      assert ExponentText(e) + rest == rest;
    } else if e < 0 {
      SignedExponentReadsBack(MINUS, -e, rest);
    } else {
      SignedExponentReadsBack(PLUS, e, rest);
    }
  }

  lemma {:induction false} NormalizeTrailing(negative: bool, digits: seq<Digit>, n: nat, point: int)
    requires NumberOk(Dec(negative, digits, point))
    ensures Normalize(negative, digits + Zeros(n), point) == Dec(negative, digits, point)
    decreases n
  {
    if n == 0 {
      assert digits + Zeros(n) == digits;
    } else {
      assert (digits + Zeros(n))[..|digits| + n - 1] == digits + Zeros(n - 1);
      NormalizeTrailing(negative, digits, n - 1, point);
    }
  }

  lemma {:induction false} NormalizeLeading(negative: bool, digits: seq<Digit>, n: nat, point: int)
    requires NumberOk(Dec(negative, digits, point))
    ensures Normalize(negative, Zeros(n) + digits, point + n) == Dec(negative, digits, point)
    decreases n
  {
    if n == 0 {
      assert Zeros(n) + digits == digits;
    } else {
      assert (Zeros(n) + digits)[1..] == Zeros(n - 1) + digits;
      NormalizeLeading(negative, digits, n - 1, point);
    }
  }

  ghost predicate Keeps(p: Parts, d: Decimal)
    requires d.Dec?
  {
    p.whole != [] && (p.whole[0] == 0 ==> |p.whole| == 1)
    && Normalize(d.negative, p.whole + p.frac, |p.whole| + p.exponent) == d
  }

  lemma PaddedLayout(d: Decimal)
    requires d.Dec? && NumberOk(d) && |d.digits| <= d.point <= 21
    ensures Keeps(Layout(d.digits, d.point), d)
  {
    var zeros := Zeros(d.point - |d.digits|);
    assert (d.digits + zeros) + [] == d.digits + zeros;
    NormalizeTrailing(d.negative, d.digits, d.point - |d.digits|, d.point);
  }

  lemma SplitLayout(d: Decimal, at: nat, e: int)
    requires d.Dec? && NumberOk(d) && 0 < at <= |d.digits| && at + e == d.point
    ensures Keeps(Parts(d.digits[..at], d.digits[at..], e), d)
  {
    assert d.digits[..at] + d.digits[at..] == d.digits;
  }

  lemma SmallLayout(d: Decimal)
    requires d.Dec? && NumberOk(d) && -6 < d.point <= 0
    ensures Keeps(Parts([0], Zeros(-d.point) + d.digits, 0), d)
  {
    assert [0] + (Zeros(-d.point) + d.digits) == Zeros(1 - d.point) + d.digits;
    NormalizeLeading(d.negative, d.digits, 1 - d.point, d.point);
  }

  lemma LayoutKeepsValue(d: Decimal)
    requires d.Dec? && NumberOk(d)
    ensures Keeps(Layout(d.digits, d.point), d)
  {
    if |d.digits| <= d.point <= 21 {
      PaddedLayout(d);
    } else if 0 < d.point <= 21 {
      SplitLayout(d, d.point, 0);
    } else if -6 < d.point <= 0 {
      SmallLayout(d);
    } else {
      SplitLayout(d, 1, d.point - 1);
      assert d.digits[..1] == [d.digits[0]];
    }
  }

  lemma TailEndsDigits(frac: seq<Digit>, e: int, rest: Text)
    requires Delimited(rest)
    ensures var tail := ExponentText(e) + rest;
            EndsDigits(tail) && (tail == [] || tail[0] != DOT) && EndsDigits(FractionText(frac) + tail)
  {
  }

  lemma UnsignedReadsBack(p: Parts, rest: Text)
    requires p.whole != [] && (p.whole[0] == 0 ==> |p.whole| == 1) && Delimited(rest)
    ensures ReadUnsigned(DigitsText(p.whole) + (FractionText(p.frac) + (ExponentText(p.exponent) + rest)))
        == Some((p, rest))
  {
    var tail := ExponentText(p.exponent) + rest;
    var after := FractionText(p.frac) + tail;
    TailEndsDigits(p.frac, p.exponent, rest);
    DigitRunStops(p.whole, after);
    FractionReadsBack(p.frac, tail);
    ExponentReadsBack(p.exponent, rest);
  }

  lemma SignReadsBack(negative: bool, u: Text)
    requires u != [] && u[0] != MINUS
    ensures ReadNumber(Sign(negative) + u) == Valued(negative, ReadUnsigned(u))
  {
    assert negative ==> (Sign(negative) + u)[1..] == u;
    assert !negative ==> Sign(negative) + u == u;
  }

  lemma PartsTextSplits(negative: bool, p: Parts, rest: Text)
    requires p.whole != []
    ensures var u := DigitsText(p.whole) + (FractionText(p.frac) + (ExponentText(p.exponent) + rest));
            u != [] && u[0] != MINUS && PartsText(negative, p) + rest == Sign(negative) + u
  {
    Associate(Sign(negative), DigitsText(p.whole), FractionText(p.frac), ExponentText(p.exponent), rest);
    assert DigitsText(p.whole)[0] == DigitUnit(p.whole[0]);
  }

  lemma PartsReadBack(negative: bool, p: Parts, rest: Text)
    requires p.whole != [] && (p.whole[0] == 0 ==> |p.whole| == 1) && Delimited(rest)
    ensures ReadNumber(PartsText(negative, p) + rest) == Valued(negative, Some((p, rest)))
  {
    var u := DigitsText(p.whole) + (FractionText(p.frac) + (ExponentText(p.exponent) + rest));
    UnsignedReadsBack(p, rest);
    PartsTextSplits(negative, p, rest);
    SignReadsBack(negative, u);
  }

  lemma NoughtReadsBack(rest: Text)
    requires Delimited(rest)
    ensures ReadNumber([ZERO] + rest) == Some((Nought, rest))
  {
    PartsReadBack(false, Parts([0], [], 0), rest);
    assert [ZERO] == PartsText(false, Parts([0], [], 0));
    assert [0] + [] == [0];
    assert Normalize(false, [0], 1) == Nought;
  }

  lemma KeepsValued(d: Decimal, p: Parts, rest: Text)
    requires d.Dec? && Keeps(p, d)
    ensures Valued(d.negative, Some((p, rest))) == Some((d, rest))
  {
  }

  lemma LaidOutReadsBack(d: Decimal, p: Parts, rest: Text)
    requires d.Dec? && p.whole != [] && (p.whole[0] == 0 ==> |p.whole| == 1) && Delimited(rest)
    requires Valued(d.negative, Some((p, rest))) == Some((d, rest))
    ensures ReadNumber(PartsText(d.negative, p) + rest) == Some((d, rest))
  {
    PartsReadBack(d.negative, p, rest);
  }

  /** Printing a finite number and reading the text back gives the same number. */
  lemma NumberReadsBack(d: Decimal, rest: Text)
    requires NumberOk(d) && Delimited(rest)
    ensures ReadNumber(NumberText(d) + rest) == Some((d, rest))
  {
    if d.Nought? {
      NoughtReadsBack(rest);
    } else {
      LayoutKeepsValue(d);
      KeepsValued(d, Layout(d.digits, d.point), rest);
      LaidOutReadsBack(d, Layout(d.digits, d.point), rest);
    }
  }

  lemma Associate(a: Text, b: Text, c: Text, d: Text, e: Text)
    ensures a + b + c + d + e == a + (b + (c + (d + e)))
  {
  }

  /** A number's text starts with a digit or a minus sign. */
  lemma NumberHead(d: Decimal)
    requires NumberOk(d)
    ensures NumberText(d) != [] && (IsDigit(NumberText(d)[0]) || NumberText(d)[0] == MINUS)
  {
    if d.Dec? { LayoutKeepsValue(d); }
  }

  predicate NumberUnit(u: Unit) {
    IsDigit(u) || u == MINUS || u == PLUS || u == DOT || u == LOWER_E
  }

  /** Nothing but digits, signs, points and the letter of an exponent, which is there or not. */
  predicate Written(t: Text, exponent: bool) {
    (forall i :: 0 <= i < |t| ==> NumberUnit(t[i])) && (LOWER_E in t <==> exponent)
  }

  lemma WrittenParts(a: Text, b: Text, p: bool, q: bool)
    requires Written(a, p) && Written(b, q)
    ensures Written(a + b, p || q)
  {
    hide NumberUnit;
  }

  lemma WrittenDigits(ds: seq<Digit>)
    ensures Written(DigitsText(ds), false)
  {
  }

  lemma WrittenFraction(frac: seq<Digit>)
    ensures Written(FractionText(frac), false)
  {
    WrittenDigits(frac);
    assert Written([DOT], false);
    hide Written;
    if frac != [] { WrittenParts([DOT], DigitsText(frac), false, false); }
  }

  lemma WrittenExponent(e: int)
    ensures Written(ExponentText(e), e != 0)
  {
    var n: nat := if e < 0 then -e else e;
    WrittenDigits(NatDigits(n));
    assert Written([LOWER_E, MINUS], true) && Written([LOWER_E, PLUS], true);
    hide Written;
    if e != 0 { WrittenParts([LOWER_E, if e < 0 then MINUS else PLUS], DigitsText(NatDigits(n)), true, false); }
  }

  lemma LayoutExponent(digits: seq<Digit>, point: int)
    requires digits != []
    ensures Layout(digits, point).exponent != 0 <==> point <= -6 || point > 21
  {
  }

  /**
   As Number::toString does it, a number is written with an exponent if and only if its magnitude is below 1e-6
   or at least 1e21, and with nothing but digits, signs, a point and that letter.
   */
  lemma NotationIsExact(d: Decimal)
    requires NumberOk(d)
    ensures Written(NumberText(d), d.Dec? && (d.point <= -6 || d.point > 21))
  {
    if d.Dec? {
      var p := Layout(d.digits, d.point);
      LayoutExponent(d.digits, d.point);
      WrittenDigits(p.whole);
      WrittenFraction(p.frac);
      WrittenExponent(p.exponent);
      assert Written(Sign(d.negative), false);
      hide Written, Sign, DigitsText, FractionText, ExponentText, Layout;
      var head := Sign(d.negative) + DigitsText(p.whole);
      WrittenParts(Sign(d.negative), DigitsText(p.whole), false, false);
      WrittenParts(head, FractionText(p.frac), false, false);
      WrittenParts(head + FractionText(p.frac), ExponentText(p.exponent), false, p.exponent != 0);
    } else {
      assert NumberText(d) == [ZERO];
    }
  }
}
