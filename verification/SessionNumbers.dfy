/** Session.GetInt64 on a JSON number: reading decimal text as a 64-bit integer without rounding. */
module SessionNumbers {
  import opened Tokens

  const MIN_INT64 := -0x8000_0000_0000_0000
  const MAX_INT64 := 0x7FFF_FFFF_FFFF_FFFF

  newtype int64 = x: int | MIN_INT64 <= x <= MAX_INT64

  predicate InRange(v: int) { MIN_INT64 <= v <= MAX_INT64 }

  // ----- decimal digits

  predicate IsDigit(c: char) { '0' <= c <= '9' }

  predicate AllDigits(s: string) { forall i :: 0 <= i < |s| ==> IsDigit(s[i]) }

  predicate AllZeros(s: string) { forall i :: 0 <= i < |s| ==> s[i] == '0' }

  function Pow10(n: nat): (p: nat)
    ensures p > 0
  {
    if n == 0 then 1 else 10 * Pow10(n - 1)
  }

  function DigitsValue(s: string): nat
    requires AllDigits(s)
  {
    if s == "" then 0 else 10 * DigitsValue(s[..|s| - 1]) + (s[|s| - 1] as int - '0' as int)
  }

  lemma {:induction false} Pow10Sum(a: nat, b: nat)
    ensures Pow10(a + b) == Pow10(a) * Pow10(b)
  {
    if a > 0 { Pow10Sum(a - 1, b); }
  }

  lemma Pow10Grows(a: nat, b: nat)
    requires a <= b
    ensures Pow10(a) <= Pow10(b)
  {
    Pow10Sum(a, b - a);
    assert Pow10(a) * Pow10(b - a) >= Pow10(a) * 1;
  }

  lemma Pow10Nineteen()
    ensures Pow10(19) == 10_000_000_000_000_000_000
  {
    Pow10Sum(9, 10);
    Pow10Sum(4, 5);
    Pow10Sum(5, 5);
    assert Pow10(4) == 10_000;
    assert Pow10(5) == 10 * Pow10(4);
  }

  /** Reading two runs of digits in a row. */
  lemma {:induction false} ValueOfConcat(a: string, b: string)
    requires AllDigits(a) && AllDigits(b)
    ensures AllDigits(a + b) && DigitsValue(a + b) == DigitsValue(a) * Pow10(|b|) + DigitsValue(b)
  {
    if b == "" {
      assert a + b == a;
    } else {
      var front := b[..|b| - 1];
      assert (a + b)[..|a + b| - 1] == a + front;
      ValueOfConcat(a, front);
      assert DigitsValue(a) * Pow10(|b|) == 10 * (DigitsValue(a) * Pow10(|front|));
    }
  }

  lemma {:induction false} ValueBounds(s: string)
    requires AllDigits(s)
    ensures DigitsValue(s) < Pow10(|s|)
    ensures s != "" && s[0] != '0' ==> DigitsValue(s) >= Pow10(|s| - 1)
  {
    if |s| > 1 { ValueBounds(s[..|s| - 1]); }
  }

  lemma {:induction false} ZeroValue(s: string)
    requires AllDigits(s)
    ensures DigitsValue(s) == 0 <==> AllZeros(s)
  {
    if s != "" {
      ZeroValue(s[..|s| - 1]);
      assert AllZeros(s) <==> AllZeros(s[..|s| - 1]) && s[|s| - 1] == '0';
    }
  }

  // ----- the text of a JSON number (section 6 of RFC 8259) and what it denotes

  datatype Exponent = Exponent(mark: char, sign: string, digits: string)

  datatype Number = Number(negative: bool, whole: string, fraction: Option<string>, exponent: Option<Exponent>)

  predicate WellFormed(n: Number) {
    && n.whole != "" && AllDigits(n.whole) && (|n.whole| == 1 || n.whole[0] != '0')
    && (n.fraction.Some? ==> n.fraction.value != "" && AllDigits(n.fraction.value))
    && (n.exponent.Some? ==>
          var e := n.exponent.value;
          && (e.mark == 'e' || e.mark == 'E')
          && (e.sign == "" || e.sign == "+" || e.sign == "-")
          && e.digits != "" && AllDigits(e.digits))
  }

  function FractionText(n: Number): string {
    if n.fraction.Some? then ['.'] + n.fraction.value else ""
  }

  function ExponentText(n: Number): string {
    if n.exponent.Some? then [n.exponent.value.mark] + (n.exponent.value.sign + n.exponent.value.digits) else ""
  }

  function Body(n: Number): string {
    Mantissa(n) + ExponentText(n)
  }

  function Text(n: Number): string {
    if n.negative then "-" + Body(n) else Body(n)
  }

  function FractionDigits(n: Number): string {
    if n.fraction.Some? then n.fraction.value else ""
  }

  /** The text before the exponent, and the digits in it. */
  function Mantissa(n: Number): string {
    n.whole + FractionText(n)
  }

  function Digits(n: Number): string {
    n.whole + FractionDigits(n)
  }

  function Coefficient(n: Number): nat
    requires WellFormed(n)
  {
    DigitsValue(Digits(n))
  }

  function Power(n: Number): int
    requires WellFormed(n)
  {
    if n.exponent.None? then 0
    else
      var p: int := DigitsValue(n.exponent.value.digits);
      if n.exponent.value.sign == "-" then -p else p
  }

  /** v is exactly (-1)^negative * coefficient * 10^scale. */
  predicate Scaled(negative: bool, coefficient: int, scale: int, v: int) {
    if scale >= 0 then v == Signed(negative, coefficient) * Pow10(scale)
    else v * Pow10(-scale) == Signed(negative, coefficient)
  }

  function Signed(negative: bool, magnitude: int): int {
    if negative then -magnitude else magnitude
  }

  predicate Denotes(n: Number, v: int)
    requires WellFormed(n)
  {
    Scaled(n.negative, Coefficient(n), Power(n) - |FractionDigits(n)|, v)
  }

  /** A number denotes one integer at most. */
  lemma DenotesOne(n: Number, v: int, w: int)
    requires WellFormed(n) && Denotes(n, v) && Denotes(n, w)
    ensures v == w
  {
    var scale := Power(n) - |FractionDigits(n)|;
    if scale < 0 {
      CancelPow10(v, w, -scale);
    }
  }

  lemma CancelPow10(v: int, w: int, k: nat)
    requires v * Pow10(k) == w * Pow10(k)
    ensures v == w
  {
    assert (v - w) * Pow10(k) == 0;
  }

  ghost predicate ScaledReadsAs(negative: bool, coefficient: nat, scale: int, r: int) {
    if exists v :: InRange(v) && Scaled(negative, coefficient, scale, v)
    then Scaled(negative, coefficient, scale, r) else r == 0
  }

  /** What a reader must return: the integer if there is one that fits, and 0 otherwise. */
  ghost predicate ReadsAs(n: Number, r: int)
    requires WellFormed(n)
  {
    ScaledReadsAs(n.negative, Coefficient(n), Power(n) - |FractionDigits(n)|, r)
  }

  // ----- library functions the reader calls

  function IndexOf(s: string, chars: set<char>): (i: int)
    ensures -1 <= i < |s|
    ensures i >= 0 ==> s[i] in chars && forall j :: 0 <= j < i ==> s[j] !in chars
    ensures i == -1 ==> forall j :: 0 <= j < |s| ==> s[j] !in chars
  {
    if s == "" then -1
    else if s[0] in chars then 0
    else
      var rest := IndexOf(s[1..], chars);
      if rest == -1 then -1 else rest + 1
  }

  function ParseInt(s: string): Option<int64> {
    var signed := s != "" && (s[0] == '+' || s[0] == '-');
    var digits := if signed then s[1..] else s;
    if digits == "" || !AllDigits(digits) then None
    else
      var value: int := DigitsValue(digits);
      var v := if signed && s[0] == '-' then -value else value;
      if InRange(v) then Some(v as int64) else None
  }

  function TrimLeftZeros(s: string): (t: string)
    ensures |t| <= |s| && t == s[|s| - |t|..] && AllZeros(s[..|s| - |t|]) && (t != "" ==> t[0] != '0')
  {
    if s != "" && s[0] == '0' then TrimLeftZeros(s[1..]) else s
  }

  function Zeros(n: nat): (s: string)
    ensures |s| == n && AllZeros(s)
  {
    seq(n, _ => '0')
  }

  // ----- deciding the grammar

  function SplitMantissa(mantissa: string): (string, Option<string>) {
    var dot := IndexOf(mantissa, {'.'});
    if dot >= 0 then (mantissa[..dot], Some(mantissa[dot + 1..])) else (mantissa, None)
  }

  function SplitBody(body: string): (string, Option<Exponent>) {
    var mark := IndexOf(body, {'e', 'E'});
    if mark < 0 then (body, None)
    else
      var tail := body[mark + 1..];
      var sign := if tail != "" && (tail[0] == '+' || tail[0] == '-') then tail[..1] else "";
      (body[..mark], Some(Exponent(body[mark], sign, tail[|sign|..])))
  }

  function Split(text: string): Number {
    var negative := text != "" && text[0] == '-';
    var (mantissa, exponent) := SplitBody(if negative then text[1..] else text);
    var (whole, fraction) := SplitMantissa(mantissa);
    Number(negative, whole, fraction, exponent)
  }

  /** Whether the text is a JSON number. */
  predicate IsNumber(text: string) {
    WellFormed(Split(text)) && Text(Split(text)) == text
  }

  lemma CutAt(a: string, c: char, b: string, chars: set<char>)
    requires c in chars && forall i :: 0 <= i < |a| ==> a[i] !in chars
    ensures var s := a + ([c] + b);
            IndexOf(s, chars) == |a| && s[..|a|] == a && s[|a|] == c && s[|a| + 1..] == b
  {
    var s := a + ([c] + b);
    assert s[|a|] == c;
    assert forall i :: 0 <= i < |a| ==> s[i] == a[i];
  }

  lemma SplitMantissaOf(n: Number)
    requires WellFormed(n)
    ensures var mantissa := Mantissa(n);
            SplitMantissa(mantissa) == (n.whole, n.fraction)
  {
    if n.fraction.Some? {
      CutAt(n.whole, '.', n.fraction.value, {'.'});
    } else {
      assert Mantissa(n) == n.whole;
    }
  }

  lemma MantissaHasNoMark(n: Number)
    requires WellFormed(n)
    ensures var mantissa := Mantissa(n);
            forall i :: 0 <= i < |mantissa| ==> mantissa[i] !in {'e', 'E'}
  {
  }

  lemma SplitSign(sign: string, digits: string)
    requires (sign == "" || sign == "+" || sign == "-") && digits != "" && AllDigits(digits)
    ensures var tail := sign + digits;
            && sign == (if tail[0] == '+' || tail[0] == '-' then tail[..1] else "")
            && digits == tail[|sign|..]
  {
  }

  lemma SplitBodyOf(n: Number, mantissa: string)
    requires WellFormed(n) && forall i :: 0 <= i < |mantissa| ==> mantissa[i] !in {'e', 'E'}
    ensures SplitBody(mantissa + ExponentText(n)) == (mantissa, n.exponent)
  {
    if n.exponent.Some? {
      var e := n.exponent.value;
      CutAt(mantissa, e.mark, e.sign + e.digits, {'e', 'E'});
      SplitSign(e.sign, e.digits);
    } else {
      assert mantissa + ExponentText(n) == mantissa;
    }
  }

  lemma SplitNegative(negative: bool, body: string)
    requires body != "" && body[0] != '-'
    ensures var text := if negative then "-" + body else body;
            text != "" && (text[0] == '-' <==> negative) && body == (if negative then text[1..] else text)
  {
  }

  lemma BodyStart(n: Number)
    requires WellFormed(n)
    ensures Body(n) != "" && Body(n)[0] == n.whole[0]
  {
    hide FractionText, ExponentText;
  }

  /** Splitting recovers exactly the parts a number text was written from. */
  lemma SplitText(n: Number)
    requires WellFormed(n)
    ensures Split(Text(n)) == n
  {
    hide FractionText, ExponentText, SplitBody, SplitMantissa;
    BodyStart(n);
    SplitNegative(n.negative, Body(n));
    SplitMantissaOf(n);
    MantissaHasNoMark(n);
    SplitBodyOf(n, Mantissa(n));
  }

  /** The decision is exact: a text passes precisely when the grammar can produce it. */
  lemma IsNumberExact(text: string)
    ensures IsNumber(text) <==> exists n :: WellFormed(n) && Text(n) == text
  {
    if n :| WellFormed(n) && Text(n) == text {
      SplitText(n);
    }
  }

  // ----- why each shortcut of the reader is exact

  lemma MulMono(a: int, b: int, c: nat)
    requires a >= b
    ensures a * c >= b * c
  {
    assert a * c == b * c + (a - b) * c;
  }

  lemma SignedProduct(negative: bool, m: int, p: int)
    ensures Signed(negative, m) * p == Signed(negative, m * p)
  {
  }

  lemma AwayFromZero(v: int, p: nat)
    ensures v > 0 ==> v * p >= p
    ensures v < 0 ==> v * p <= -(p as int)
  {
    if v > 0 { MulMono(v, 1, p); }
    if v < 0 { MulMono(-1, v, p); }
  }

  /** A coefficient shifted left by nineteen places or more does not fit. */
  lemma ShiftedTooFar(negative: bool, coefficient: nat, scale: int)
    requires scale >= 0 && (coefficient > 0 ==> coefficient * Pow10(scale) >= Pow10(19))
    ensures ScaledReadsAs(negative, coefficient, scale, 0)
  {
    Pow10Nineteen();
    SignedProduct(negative, coefficient, Pow10(scale));
    assert coefficient == 0 ==> Scaled(negative, coefficient, scale, 0);
    assert coefficient > 0 ==> !InRange(Signed(negative, coefficient) * Pow10(scale));
  }

  /** A coefficient shifted right past all of its digits is no integer, unless it is zero. */
  lemma ShiftedAway(negative: bool, coefficient: nat, scale: int)
    requires scale < 0 && coefficient < Pow10(-scale)
    ensures ScaledReadsAs(negative, coefficient, scale, 0)
  {
    forall v | Scaled(negative, coefficient, scale, v) ensures v == 0 {
      AwayFromZero(v, Pow10(-scale));
    }
    assert coefficient == 0 ==> Scaled(negative, coefficient, scale, 0);
  }

  lemma NoMultiple(v: int, h: int, p: nat, t: int)
    requires 0 < t < p
    ensures v * p != h * p + t
  {
    AwayFromZero(v - h, p);
    assert (v - h) * p == v * p - h * p;
  }

  lemma NonzeroTail(negative: bool, head: string, tail: string)
    requires AllDigits(head) && AllDigits(tail) && !AllZeros(tail)
    ensures AllDigits(head + tail) && ScaledReadsAs(negative, DigitsValue(head + tail), -|tail|, 0)
  {
    ValueOfConcat(head, tail);
    ValueBounds(tail);
    ZeroValue(tail);
    var scale := -|tail|;
    forall v ensures !Scaled(negative, DigitsValue(head + tail), scale, v) {
      SignedProduct(negative, v, Pow10(|tail|));
      NoMultiple(Signed(negative, v), DigitsValue(head), Pow10(|tail|), DigitsValue(tail));
    }
  }

  lemma ShiftBoth(negative: bool, m: int, scale: int, v: int)
    requires scale <= 0
    ensures Scaled(negative, m, 0, v) <==> Scaled(negative, m * Pow10(-scale), scale, v)
  {
    var k := -scale;
    SignedProduct(negative, m, Pow10(k));
    assert Signed(negative, m) * Pow10(0) == Signed(negative, m);
    if k > 0 && v * Pow10(k) == Signed(negative, m) * Pow10(k) { CancelPow10(v, Signed(negative, m), k); }
    if k == 0 { assert m * Pow10(k) == m; }
  }

  /** Cutting zeros off the coefficient and the same number off the scale changes nothing. */
  lemma ZeroTail(negative: bool, head: string, tail: string, r: int)
    requires AllDigits(head) && AllZeros(tail)
    requires ScaledReadsAs(negative, DigitsValue(head), 0, r)
    ensures AllDigits(tail) && AllDigits(head + tail)
    ensures ScaledReadsAs(negative, DigitsValue(head + tail), -|tail|, r)
  {
    ValueOfConcat(head, tail);
    ZeroValue(tail);
    var m, whole, scale := DigitsValue(head), DigitsValue(head + tail), -|tail|;
    forall v ensures Scaled(negative, m, 0, v) <==> Scaled(negative, whole, scale, v) {
      ShiftBoth(negative, m, scale, v);
    }
  }

  lemma LongCoefficient(negative: bool, text: string, scale: nat)
    requires AllDigits(text) && text != "" && text[0] != '0' && |text| + scale > 19
    ensures ScaledReadsAs(negative, DigitsValue(text), scale, 0)
  {
    hide DigitsValue, Pow10, ScaledReadsAs;
    ValueBounds(text);
    Pow10Sum(|text| - 1, scale);
    Pow10Grows(19, |text| - 1 + scale);
    MulMono(DigitsValue(text), Pow10(|text| - 1), Pow10(scale));
    ShiftedTooFar(negative, DigitsValue(text), scale);
  }

  /** Parsing the coefficient with its zeros written out, the last thing the reader does. */
  lemma ParsePadded(negative: bool, text: string, scale: nat)
    requires AllDigits(text) && text != ""
    ensures var p := ParseInt((if negative then "-" else "") + (text + Zeros(scale)));
            ScaledReadsAs(negative, DigitsValue(text), scale, if p.Some? then p.value as int else 0)
  {
    var padded := text + Zeros(scale);
    ValueOfConcat(text, Zeros(scale));
    ZeroValue(Zeros(scale));
    SignedProduct(negative, DigitsValue(text), Pow10(scale));
    ParseSigned(negative, padded);
    assert Scaled(negative, DigitsValue(text), scale, Signed(negative, DigitsValue(padded)));
  }

  lemma ParseSigned(negative: bool, digits: string)
    requires AllDigits(digits) && digits != ""
    ensures var v := Signed(negative, DigitsValue(digits));
            ParseInt((if negative then "-" else "") + digits) == if InRange(v) then Some(v as int64) else None
  {
    hide DigitsValue;
    assert IsDigit(digits[0]);
    if negative {
      assert ("-" + digits)[0] == '-' && ("-" + digits)[1..] == digits;
    } else {
      assert "" + digits == digits;
    }
  }

  lemma {:induction false} TrimValue(s: string)
    requires AllDigits(s)
    ensures AllDigits(TrimLeftZeros(s)) && DigitsValue(TrimLeftZeros(s)) == DigitsValue(s)
  {
    var t := TrimLeftZeros(s);
    var zeros := s[..|s| - |t|];
    ZeroValue(zeros);
    ValueOfConcat(zeros, t);
    assert zeros + t == s;
  }

  // ----- the reader's first two steps

  lemma ParsedWhole(n: Number)
    requires WellFormed(n) && ParseInt(Text(n)).Some?
    ensures ReadsAs(n, ParseInt(Text(n)).value as int)
  {
    BodyStart(n);
    SplitNegative(n.negative, Body(n));
    MarksInBody(n);
    var v := ParseInt(Text(n)).value as int;
    assert Body(n) == n.whole == Digits(n);
    assert Signed(n.negative, Coefficient(n)) * Pow10(0) == Signed(n.negative, Coefficient(n));
    assert Denotes(n, v);
  }

  lemma MarksInBody(n: Number)
    requires WellFormed(n)
    ensures AllDigits(Body(n)) ==> n.fraction.None? && n.exponent.None?
  {
    var body, dot, mark := Body(n), |n.whole|, |Mantissa(n)|;
    assert n.fraction.Some? ==> dot < |body| && body[dot] == '.';
    assert n.exponent.Some? ==> mark < |body| && body[mark] == n.exponent.value.mark;
  }

  lemma ParsedExponent(n: Number)
    requires WellFormed(n) && n.exponent.Some?
    ensures ParseInt(n.exponent.value.sign + n.exponent.value.digits)
            == if InRange(Power(n)) then Some(Power(n) as int64) else None
  {
    var e := n.exponent.value;
    SplitSign(e.sign, e.digits);
  }

  /** An exponent outside the window the mantissa's length allows leaves nothing to read but zero. */
  lemma OutsideWindow(n: Number)
    requires WellFormed(n)
    requires var length := |Mantissa(n)|; Power(n) > length + 19 || Power(n) < -length
    ensures ReadsAs(n, 0)
  {
    hide DigitsValue, Pow10, ScaledReadsAs, Power;
    var digits := Digits(n);
    var scale := Power(n) - |FractionDigits(n)|;
    ValueBounds(digits);
    assert |FractionDigits(n)| <= |FractionText(n)|;
    if scale >= 0 {
      Pow10Grows(19, scale);
      if Coefficient(n) > 0 { MulMono(Coefficient(n), 1, Pow10(scale)); }
      ShiftedTooFar(n.negative, Coefficient(n), scale);
    } else {
      Pow10Grows(|digits|, -scale);
      ShiftedAway(n.negative, Coefficient(n), scale);
    }
  }

  // ----- the reader

  /** No Go string is longer; it keeps every length and exponent below within int64. */
  const MAX_LENGTH := 0x1000_0000_0000_0000

  /** The end of the reader: digits times a power of ten. */
  method ReadScaled(negative: bool, digits: string, scale: int64) returns (result: int64)
    requires AllDigits(digits) && |digits| < MAX_LENGTH && -2 * MAX_LENGTH < scale as int < 2 * MAX_LENGTH
    ensures ScaledReadsAs(negative, DigitsValue(digits), scale as int, result as int)
  {
    hide ScaledReadsAs, DigitsValue, Pow10, ParseInt, TrimLeftZeros;
    var text, exponent := TrimLeftZeros(digits), scale;
    TrimValue(digits);
    if text == "" {
      NothingToShift(negative, scale as int);
      return 0;
    }
    ghost var coefficient := text;
    if exponent < 0 {
      var remove := -exponent;
      if remove > |text| as int64 {
        ValueBounds(text);
        Pow10Grows(|text|, remove as int);
        ShiftedAway(negative, DigitsValue(text), scale as int);
        return 0;
      }
      var split := |text| - remove as int;
      assert text == text[..split] + text[split..];
      if !AllZeros(text[split..]) {
        NonzeroTail(negative, text[..split], text[split..]);
        return 0;
      }
      text := text[..split];
      exponent := 0;
    }
    if |text| as int64 + exponent > 19 {
      LongCoefficient(negative, text, exponent as nat);
      result := 0;
    } else {
      ParsePadded(negative, text, exponent as nat);
      var parsed := ParseInt((if negative then "-" else "") + (text + Zeros(exponent as nat)));
      result := if parsed.Some? then parsed.value else 0;
    }
    if scale < 0 {
      ZeroTail(negative, text, coefficient[|text|..], result as int);
      assert text + coefficient[|text|..] == coefficient;
    }
  }

  lemma NothingToShift(negative: bool, scale: int)
    ensures ScaledReadsAs(negative, DigitsValue(""), scale, 0)
  {
    if scale >= 0 { ShiftedTooFar(negative, 0, scale); } else { ShiftedAway(negative, 0, scale); }
  }

  /** The mark is at the end of the mantissa, if there is one. */
  lemma MarkAt(n: Number)
    requires WellFormed(n)
    ensures var index := IndexOf(Body(n), {'e', 'E'});
            && (n.exponent.None? ==> index < 0 && Body(n) == Mantissa(n))
            && (n.exponent.Some? ==> index == |Mantissa(n)| && Body(n)[..index] == Mantissa(n))
            && (n.exponent.Some? ==>
                  Body(n)[index + 1..] == n.exponent.value.sign + n.exponent.value.digits)
  {
    MantissaHasNoMark(n);
    hide Mantissa, AllDigits;
    if n.exponent.Some? {
      var e := n.exponent.value;
      CutAt(Mantissa(n), e.mark, e.sign + e.digits, {'e', 'E'});
    } else {
      assert Body(n) == Mantissa(n);
    }
  }

  lemma NoPower(n: Number)
    requires WellFormed(n) && n.exponent.None?
    ensures Power(n) == 0
  {
  }

  lemma CutExponent(n: Number)
    requires WellFormed(n)
    ensures var body := Body(n); var index := IndexOf(body, {'e', 'E'});
            && (index < 0 ==> body == Mantissa(n) && Power(n) == 0)
            && (index >= 0 ==> body[..index] == Mantissa(n) && |Mantissa(n)| <= |body|)
            && (index >= 0 ==> ParseInt(body[index + 1..])
                               == if InRange(Power(n)) then Some(Power(n) as int64) else None)
  {
    hide Mantissa, Body, Power, ParseInt, IndexOf, WellFormed, InRange;
    MarkAt(n);
    if n.exponent.Some? {
      ParsedExponent(n);
    } else {
      NoPower(n);
    }
  }

  lemma CutPoint(n: Number)
    requires WellFormed(n)
    ensures var text := Mantissa(n); var dot := IndexOf(text, {'.'});
            && (if dot >= 0 then text[..dot] + text[dot + 1..] else text) == Digits(n)
            && |FractionDigits(n)| == (if dot >= 0 then |text| - dot - 1 else 0)
            && AllDigits(Digits(n)) && |Digits(n)| <= |text|
  {
    hide FractionText, IndexOf;
    SplitMantissaOf(n);
  }

  lemma ReadsScaled(n: Number, r: int)
    requires WellFormed(n) && AllDigits(Digits(n))
    requires ScaledReadsAs(n.negative, DigitsValue(Digits(n)), Power(n) - |FractionDigits(n)|, r)
    ensures ReadsAs(n, r)
  {
  }

  /** Cuts the exponent off; parsed is false when it does not even fit an int64. */
  method ReadExponent(ghost n: Number, unsigned: string) returns (text: string, exponent: int64, parsed: bool)
    requires WellFormed(n) && unsigned == Body(n)
    ensures parsed <==> InRange(Power(n))
    ensures parsed ==> text == Mantissa(n) && exponent as int == Power(n)
    ensures |text| <= |unsigned|
  {
    hide Body, Mantissa, IndexOf, ParseInt, Power, WellFormed;
    CutExponent(n);
    var index := IndexOf(unsigned, {'e', 'E'});
    if index < 0 {
      return unsigned, 0, true;
    }
    var p := ParseInt(unsigned[index + 1..]);
    if p.None? {
      return "", 0, false;
    }
    return unsigned[..index], p.value, true;
  }

  /** Cuts the point out, counting the digits after it into the exponent. */
  method DropPoint(ghost n: Number, mantissa: string, power: int64) returns (text: string, exponent: int64)
    requires WellFormed(n) && mantissa == Mantissa(n) && |mantissa| < MAX_LENGTH
    requires -MAX_LENGTH < power as int < MAX_LENGTH + 20
    ensures text == Digits(n) && AllDigits(text) && |text| <= |mantissa|
    ensures exponent as int == power as int - |FractionDigits(n)| && |FractionDigits(n)| <= |mantissa|
  {
    hide Mantissa, Digits, FractionDigits, IndexOf, WellFormed, AllDigits;
    CutPoint(n);
    text, exponent := mantissa, power;
    var dot := IndexOf(text, {'.'});
    if dot >= 0 {
      exponent := exponent - (|text| - dot - 1) as int64;
      text := text[..dot] + text[dot + 1..];
    }
  }

  /** The middle of the reader: an unsigned number text, cut at its exponent and its point. */
  method ReadUnsigned(ghost n: Number, negative: bool, unsigned: string) returns (result: int64)
    requires WellFormed(n) && negative == n.negative && unsigned == Body(n) && |unsigned| < MAX_LENGTH
    ensures ReadsAs(n, result as int)
  {
    hide Body, Mantissa, Digits, FractionDigits, Power, ScaledReadsAs, AllDigits, WellFormed, ReadsAs;
    hide Coefficient, DigitsValue;
    var text, exponent, parsed := ReadExponent(n, unsigned);
    if !parsed || exponent > |text| as int64 + 19 || exponent < -(|text| as int64) {
      MantissaIsShort(n);
      OutsideWindow(n);
      return 0;
    }
    text, exponent := DropPoint(n, text, exponent);
    result := ReadScaled(negative, text, exponent);
    ReadsScaled(n, result as int);
  }

  lemma MantissaIsShort(n: Number)
    requires WellFormed(n)
    ensures |Mantissa(n)| <= |Body(n)|
  {
  }

  /** GetInt64 of a JSON number: exact for every number text, whatever its exponent. */
  method GetInt64(number: string) returns (result: int64)
    requires |number| < MAX_LENGTH
    ensures forall n :: WellFormed(n) && Text(n) == number ==> ReadsAs(n, result as int)
    ensures !IsNumber(number) ==> result == if ParseInt(number).Some? then ParseInt(number).value else 0
  {
    ghost var n := Split(number);
    forall m | WellFormed(m) && Text(m) == number ensures m == n && IsNumber(number) { SplitText(m); }
    var whole := ParseInt(number);
    if whole.Some? {
      if IsNumber(number) { ParsedWhole(n); }
      return whole.value;
    }
    if |number| == 0 || !IsNumber(number) {
      return 0;
    }
    BodyStart(n);
    SplitNegative(n.negative, Body(n));
    var negative, text := number[0] == '-', number;
    if negative {
      text := text[1..];
    }
    result := ReadUnsigned(n, negative, text);
  }
}
