/** The grammar of numbers read one character at a time, as a scanner does, and the value of a number read off its
    parts: the two things that the exact reader is measured by, each told in another way. */
module NumberGrammar {
  import opened Tokens
  import opened SessionNumbers

  /** How far into a number the scanner is. */
  datatype Scan =
    | AtStart
    | AtSign
    | AtZero
    | InWhole
    | AtPoint
    | InFraction
    | AtMark
    | AtExponentSign
    | InExponent
    | Stuck

  predicate IsOneToNine(c: char) {
    c in {'1', '2', '3', '4', '5', '6', '7', '8', '9'}
  }

  function FirstDigit(c: char): Scan {
    if c == '0' then AtZero else if IsOneToNine(c) then InWhole else Stuck
  }

  function AfterWhole(c: char): Scan {
    if c == '.' then AtPoint else if c == 'e' || c == 'E' then AtMark else Stuck
  }

  function OnDigit(c: char, next: Scan): Scan {
    if c == '0' || IsOneToNine(c) then next else Stuck
  }

  function After(at: Scan, c: char): Scan {
    match at
    case AtStart => if c == '-' then AtSign else FirstDigit(c)
    case AtSign => FirstDigit(c)
    case AtZero => AfterWhole(c)
    case InWhole => if OnDigit(c, InWhole) == InWhole then InWhole else AfterWhole(c)
    case AtPoint => OnDigit(c, InFraction)
    case InFraction => if c == 'e' || c == 'E' then AtMark else OnDigit(c, InFraction)
    case AtMark => if c == '+' || c == '-' then AtExponentSign else OnDigit(c, InExponent)
    case AtExponentSign => OnDigit(c, InExponent)
    case InExponent => OnDigit(c, InExponent)
    case Stuck => Stuck
  }

  function Scanned(at: Scan, text: string): Scan
    decreases |text|
  {
    if text == "" then at else Scanned(After(at, text[0]), text[1..])
  }

  predicate Accepts(at: Scan) {
    at.AtZero? || at.InWhole? || at.InFraction? || at.InExponent?
  }

  lemma {:induction false} ScannedInTwo(at: Scan, a: string, b: string)
    ensures Scanned(at, a + b) == Scanned(Scanned(at, a), b)
    decreases |a|
  {
    hide After;
    if a == "" {
      assert a + b == b;
    } else {
      ScannedInTwo(After(at, a[0]), a[1..], b);
      assert (a + b)[1..] == a[1..] + b;
    }
  }

  lemma ScannedLast(at: Scan, text: string, c: char)
    ensures Scanned(at, text + [c]) == After(Scanned(at, text), c)
  {
    ScannedInTwo(at, text, [c]);
    assert [c][1..] == "";
  }

  lemma DigitsAre(c: char)
    ensures IsDigit(c) <==> c == '0' || IsOneToNine(c)
  {
  }

  // ----- what the grammar produces is accepted

  lemma {:induction false} DigitsStay(at: Scan, digits: string)
    requires (at.InWhole? || at.InFraction? || at.InExponent?) && AllDigits(digits)
    ensures Scanned(at, digits) == at
  {
    if digits != "" {
      DigitsAre(digits[0]);
      DigitsStay(at, digits[1..]);
    }
  }

  lemma WholeIsScanned(n: Number, at: Scan)
    requires WellFormed(n) && (at.AtStart? || at.AtSign?)
    ensures Scanned(at, n.whole).AtZero? || Scanned(at, n.whole).InWhole?
  {
    DigitsAre(n.whole[0]);
    if n.whole[0] == '0' {
      assert n.whole[1..] == "";
    } else {
      DigitsStay(InWhole, n.whole[1..]);
    }
  }

  lemma FractionIsScanned(n: Number, at: Scan)
    requires WellFormed(n) && (at.AtZero? || at.InWhole?)
    ensures Scanned(at, FractionText(n)) == if n.fraction.Some? then InFraction else at
  {
    if n.fraction.Some? {
      var digits := n.fraction.value;
      DigitsAre(digits[0]);
      DigitsStay(InFraction, digits[1..]);
      assert Scanned(AtPoint, digits) == InFraction;
      assert FractionText(n)[0] == '.' && FractionText(n)[1..] == digits;
    }
  }

  lemma ExponentIsScanned(n: Number, at: Scan)
    requires WellFormed(n) && (at.AtZero? || at.InWhole? || at.InFraction?)
    ensures Scanned(at, ExponentText(n)) == if n.exponent.Some? then InExponent else at
  {
    if n.exponent.Some? {
      var e := n.exponent.value;
      DigitsAre(e.digits[0]);
      DigitsStay(InExponent, e.digits[1..]);
      assert Scanned(AtMark, e.digits) == Scanned(AtExponentSign, e.digits) == InExponent;
      ScannedInTwo(AtMark, e.sign, e.digits);
      assert e.sign != "" ==> e.sign[1..] == "" && Scanned(AtMark, e.sign) == AtExponentSign;
      assert ExponentText(n)[0] == e.mark && ExponentText(n)[1..] == e.sign + e.digits;
    }
  }

  lemma NumberIsScanned(n: Number)
    requires WellFormed(n)
    ensures Accepts(Scanned(AtStart, Text(n)))
  {
    hide WellFormed, After, FractionText, ExponentText;
    var at := if n.negative then AtSign else AtStart;
    BodyIsScanned(n, at);
    if n.negative {
      assert Text(n)[0] == '-' && Text(n)[1..] == Body(n);
      assert After(AtStart, '-') == AtSign by { SignIsScanned(); }
    }
  }

  lemma SignIsScanned()
    ensures After(AtStart, '-') == AtSign
  {
  }

  lemma BodyIsScanned(n: Number, at: Scan)
    requires WellFormed(n) && (at.AtStart? || at.AtSign?)
    ensures Accepts(Scanned(at, Body(n)))
  {
    hide WellFormed, After, FractionText, ExponentText, Scanned;
    WholeIsScanned(n, at);
    ScannedInTwo(at, n.whole, FractionText(n));
    FractionIsScanned(n, Scanned(at, n.whole));
    ScannedInTwo(at, Mantissa(n), ExponentText(n));
    ExponentIsScanned(n, Scanned(at, Mantissa(n)));
  }

  // ----- what is accepted the grammar produces

  /** Where the scanner is tells what it has read: a number, or what a number begins with. */
  ghost predicate HasRead(at: Scan, text: string, n: Number) {
    match at
    case AtStart => text == ""
    case AtSign => text == "-"
    case AtZero => IsWhole(n) && n.whole == "0" && Text(n) == text
    case InWhole => IsWhole(n) && n.whole != "0" && Text(n) == text
    case AtPoint => IsWhole(n) && Text(n) + "." == text
    case InFraction => IsDecimal(n) && n.fraction.Some? && Text(n) == text
    case AtMark => IsDecimal(n) && (Text(n) + "e" == text || Text(n) + "E" == text)
    case AtExponentSign =>
      && IsDecimal(n) && |text| == |Text(n)| + 2 && text[..|Text(n)|] == Text(n)
      && text[|Text(n)|] in {'e', 'E'} && text[|Text(n)| + 1] in {'+', '-'}
    case InExponent => WellFormed(n) && n.exponent.Some? && Text(n) == text
    case Stuck => true
  }

  predicate IsWhole(n: Number) {
    WellFormed(n) && n.fraction.None? && n.exponent.None?
  }

  predicate IsDecimal(n: Number) {
    WellFormed(n) && n.exponent.None?
  }

  lemma FirstRead(text: string, c: char, n: Number) returns (m: Number)
    requires text == "" || text == "-"
    ensures FirstDigit(c) != Stuck ==> HasRead(FirstDigit(c), text + [c], m)
  {
    m := Number(text == "-", [c], None, None);
    DigitsAre(c);
    assert [c][0] == c && (c != '0' ==> [c] != "0");
    assert "-" + (([c] + "") + "") == "-" + [c];
  }

  lemma WholeRead(text: string, c: char, n: Number) returns (m: Number)
    requires HasRead(InWhole, text, n) && IsDigit(c)
    ensures HasRead(InWhole, text + [c], m)
  {
    m := n.(whole := n.whole + [c]);
    assert Text(n) == (if n.negative then "-" else "") + n.whole;
    assert Text(m) == (if n.negative then "-" else "") + (n.whole + [c]);
    assert n.whole[0] != '0';
  }

  lemma PointRead(text: string, c: char, n: Number) returns (m: Number)
    requires HasRead(AtPoint, text, n) && IsDigit(c)
    ensures HasRead(InFraction, text + [c], m)
  {
    m := n.(fraction := Some([c]));
    assert Text(n) == (if n.negative then "-" else "") + n.whole;
    assert Text(m) == (if n.negative then "-" else "") + (n.whole + "." + [c]);
  }

  lemma FractionRead(text: string, c: char, n: Number) returns (m: Number)
    requires HasRead(InFraction, text, n) && IsDigit(c)
    ensures HasRead(InFraction, text + [c], m)
  {
    m := n.(fraction := Some(n.fraction.value + [c]));
    assert Text(n) == (if n.negative then "-" else "") + (n.whole + ("." + n.fraction.value));
    assert Text(m) == (if n.negative then "-" else "") + (n.whole + ("." + (n.fraction.value + [c])));
    assert Text(m) == Text(n) + [c];
  }

  /** The first digit of an exponent, after the mark or its sign. */
  lemma ExponentBegun(decimal: string, mark: char, sign: string, c: char, n: Number) returns (m: Number)
    requires IsDecimal(n) && Text(n) == decimal && mark in {'e', 'E'} && sign in {"", "+", "-"} && IsDigit(c)
    ensures HasRead(InExponent, decimal + ([mark] + sign) + [c], m)
  {
    m := n.(exponent := Some(Exponent(mark, sign, [c])));
    assert Text(m) == decimal + ([mark] + (sign + [c])) by { ExponentAdded(n, m.exponent.value); }
    assert [mark] + (sign + [c]) == ([mark] + sign) + [c];
    assert decimal + (([mark] + sign) + [c]) == decimal + ([mark] + sign) + [c];
  }

  lemma ExponentAdded(n: Number, e: Exponent)
    requires n.exponent.None?
    ensures Text(n.(exponent := Some(e))) == Text(n) + ([e.mark] + (e.sign + e.digits))
  {
    var m, tail := n.(exponent := Some(e)), [e.mark] + (e.sign + e.digits);
    assert Mantissa(m) == Mantissa(n) && ExponentText(m) == tail && ExponentText(n) == "";
    hide Mantissa, ExponentText;
    assert Body(n) == Mantissa(n) && Body(m) == Body(n) + tail;
    hide Body;
    if n.negative {
      assert "-" + (Body(n) + tail) == ("-" + Body(n)) + tail;
    }
  }

  lemma ExponentRead(text: string, c: char, n: Number) returns (m: Number)
    requires HasRead(InExponent, text, n) && IsDigit(c)
    ensures HasRead(InExponent, text + [c], m)
  {
    var e := n.exponent.value;
    var e' := e.(digits := e.digits + [c]);
    var base := n.(exponent := None);
    m := n.(exponent := Some(e'));
    assert base.(exponent := Some(e)) == n && base.(exponent := Some(e')) == m;
    ExponentAdded(base, e);
    ExponentAdded(base, e');
    hide Text;
    var front := [e.mark] + (e.sign + e.digits);
    assert [e.mark] + (e.sign + (e.digits + [c])) == front + [c];
    assert Text(base) + (front + [c]) == (Text(base) + front) + [c];
  }

  lemma ReadOneMore(at: Scan, text: string, c: char, n: Number) returns (m: Number)
    requires HasRead(at, text, n)
    ensures HasRead(After(at, c), text + [c], m)
  {
    DigitsAre(c);
    m := n;
    match at
    case AtStart =>
      if c != '-' {
        m := FirstRead(text, c, n);
      }
    case AtSign => m := FirstRead(text, c, n);
    case InWhole =>
      if IsDigit(c) {
        m := WholeRead(text, c, n);
      }
    case AtPoint =>
      if IsDigit(c) {
        m := PointRead(text, c, n);
      }
    case InFraction =>
      if IsDigit(c) {
        m := FractionRead(text, c, n);
      }
    case AtMark =>
      var mark := text[|Text(n)|];
      assert text == Text(n) + ([mark] + "");
      if IsDigit(c) {
        m := ExponentBegun(Text(n), mark, "", c, n);
      }
    case AtExponentSign =>
      var mark, sign := text[|Text(n)|], [text[|Text(n)| + 1]];
      assert text == Text(n) + ([mark] + sign);
      if IsDigit(c) {
        m := ExponentBegun(Text(n), mark, sign, c, n);
      }
    case InExponent =>
      if IsDigit(c) {
        m := ExponentRead(text, c, n);
      }
    case _ =>
  }

  lemma {:induction false} ReadTill(text: string) returns (n: Number)
    ensures HasRead(Scanned(AtStart, text), text, n)
  {
    hide HasRead, After;
    n := Number(false, "0", None, None);
    if text == "" {
      NothingRead(n);
    } else {
      var front, c := text[..|text| - 1], text[|text| - 1];
      assert text == front + [c];
      n := ReadTill(front);
      ScannedLast(AtStart, front, c);
      n := ReadOneMore(Scanned(AtStart, front), front, c, n);
    }
  }

  lemma NothingRead(n: Number)
    ensures HasRead(AtStart, "", n)
  {
  }

  /** Splitting a text and writing it anew decides the grammar exactly as scanning it character by character does. */
  lemma NumbersAreScanned(text: string)
    ensures IsNumber(text) <==> Accepts(Scanned(AtStart, text))
  {
    hide WellFormed, Text, Scanned;
    IsNumberExact(text);
    if IsNumber(text) {
      var n :| WellFormed(n) && Text(n) == text;
      NumberIsScanned(n);
    }
    if Accepts(Scanned(AtStart, text)) {
      var n := ReadTill(text);
      assert WellFormed(n) && Text(n) == text;
    }
  }

  // ----- what a number is worth

  function RealPow10(k: int): (p: real)
    ensures p > 0.0
  {
    if k >= 0 then Pow10(k) as real else 1.0 / Pow10(-k) as real
  }

  /** Sign, digits before the point, digits after it, exponent: each for what it is worth. */
  function Value(n: Number): real
    requires WellFormed(n)
  {
    var fraction := FractionDigits(n);
    var mantissa := DigitsValue(n.whole) as real + DigitsValue(fraction) as real / Pow10(|fraction|) as real;
    (if n.negative then -1.0 else 1.0) * mantissa * RealPow10(Power(n))
  }

  lemma Quotient(a: real, b: real, c: real)
    requires b > 0.0
    ensures a == b * c <==> a / b == c
  {
  }

  lemma IntProduct(a: int, b: int)
    ensures (a * b) as real == a as real * b as real
  {
  }

  /** Shifting to the right by f places and to the left again. */
  lemma ShiftedBack(p: int, f: nat)
    ensures RealPow10(p - f) * Pow10(f) as real == RealPow10(p)
  {
    Raised(p - f);
    Raised(p);
    hide Pow10, RealPow10;
    if p >= f {
      ShiftedShort(p - f, f);
    } else if p >= 0 {
      ShiftedPastPoint(p, f - p);
      assert -(p - f) == f - p;
    } else {
      ShiftedTwice(-p, f);
      assert -(p - f) == f + -p;
    }
  }

  lemma Raised(k: int)
    ensures RealPow10(k) == if k >= 0 then Pow10(k) as real else 1.0 / Pow10(-k) as real
  {
  }

  lemma ShiftedShort(q: nat, f: nat)
    ensures Pow10(q) as real * Pow10(f) as real == Pow10(q + f) as real
  {
    Pow10Sum(q, f);
    IntProduct(Pow10(q), Pow10(f));
  }

  lemma ShiftedTwice(k: nat, f: nat)
    ensures 1.0 / Pow10(f + k) as real * Pow10(f) as real == 1.0 / Pow10(k) as real
  {
    hide Pow10;
    ShiftedShort(f, k);
    OverBoth(Pow10(f) as real, Pow10(k) as real);
  }

  lemma ShiftedPastPoint(p: nat, k: nat)
    ensures 1.0 / Pow10(k) as real * Pow10(p + k) as real == Pow10(p) as real
  {
    hide Pow10;
    ShiftedShort(p, k);
    var a, b := Pow10(p) as real, Pow10(k) as real;
    assert Pow10(p + k) as real == b * a;
    Quotient(b * a, b, a);
    OverOne(b * a, b);
  }

  lemma OverOne(a: real, b: real)
    requires b > 0.0
    ensures 1.0 / b * a == a / b
  {
  }

  lemma OverBoth(a: real, b: real)
    requires a > 0.0 && b > 0.0
    ensures 1.0 / (a * b) * a == 1.0 / b
  {
  }

  lemma ScaledIsReal(negative: bool, coefficient: nat, scale: int, v: int)
    ensures Scaled(negative, coefficient, scale, v) <==>
              v as real == (if negative then -1.0 else 1.0) * coefficient as real * RealPow10(scale)
  {
    var c := Signed(negative, coefficient);
    assert c as real == (if negative then -1.0 else 1.0) * coefficient as real;
    if scale >= 0 {
      IntProduct(c, Pow10(scale));
    } else {
      hide Pow10;
      IsQuotient(v, Pow10(-scale), c);
    }
  }

  lemma IsQuotient(v: int, unit: nat, c: int)
    requires unit > 0
    ensures v * unit == c <==> v as real == c as real * (1.0 / unit as real)
  {
    IntProduct(v, unit);
    Quotient(c as real, unit as real, v as real);
    OverOne(c as real, unit as real);
    assert c as real * (1.0 / unit as real) == 1.0 / unit as real * c as real;
  }

  /** An integer is denoted by a number text exactly if it is what the text is worth. */
  lemma DenotesValue(n: Number, v: int)
    requires WellFormed(n)
    ensures Denotes(n, v) <==> v as real == Value(n)
  {
    hide RealPow10, Pow10, DigitsValue, Power;
    var f, p := FractionDigits(n), Power(n);
    var scale, unit := p - |f|, Pow10(|f|) as real;
    ValueOfConcat(n.whole, f);
    ScaledIsReal(n.negative, Coefficient(n), scale, v);
    ShiftedBack(p, |f|);
    IntProduct(DigitsValue(n.whole), Pow10(|f|));
    Worth(DigitsValue(n.whole) as real, DigitsValue(f) as real, unit, RealPow10(scale),
          if n.negative then -1.0 else 1.0);
  }

  lemma Worth(whole: real, fraction: real, unit: real, shift: real, sign: real)
    requires unit > 0.0
    ensures sign * (whole * unit + fraction) * shift == sign * (whole + fraction / unit) * (shift * unit)
  {
    assert (whole + fraction / unit) * unit == whole * unit + fraction;
    assert sign * (whole + fraction / unit) * (shift * unit) == sign * ((whole + fraction / unit) * unit) * shift;
  }

  predicate IsWorth(n: Number, v: int)
    requires WellFormed(n)
  {
    v as real == Value(n)
  }

  /** What the reader must return: what the text is worth, if that is an integer of 64 bits, and 0 otherwise. */
  lemma ReadsAsValue(n: Number, r: int)
    requires WellFormed(n)
    ensures ReadsAs(n, r) <==>
              if exists v :: IsWorth(n, v) && -9223372036854775808 <= v <= 9223372036854775807
              then IsWorth(n, r) else r == 0
  {
    forall v: int ensures Denotes(n, v) <==> IsWorth(n, v) {
      DenotesValue(n, v);
    }
    hide Value, Scaled, IsWorth, Coefficient, Power;
    var scale := Power(n) - |FractionDigits(n)|;
    assert forall v :: Scaled(n.negative, Coefficient(n), scale, v) <==> Denotes(n, v);
    hide Denotes;
    if v :| IsWorth(n, v) && -9223372036854775808 <= v <= 9223372036854775807 {
      assert InRange(v) && Scaled(n.negative, Coefficient(n), scale, v);
    }
  }
}
