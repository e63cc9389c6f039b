/**
 * Decimal numerals: Python's `float(text)` on plain decimal text, and the
 * rendering of the fixed-point literals that the coordinate tables hold,
 * with the round trip between the two.
 */
module Numerals {
  import opened Wrappers
  import Text

  predicate IsDigit(c: char)
  {
    '0' <= c <= '9'
  }

  /** Every character is a decimal digit (checked from the last one back). */
  predicate AllDigits(s: string)
  {
    s == [] || (AllDigits(s[..|s| - 1]) && IsDigit(s[|s| - 1]))
  }

  /** Each character of a digit string is a digit. */
  lemma {:induction false} DigitAt(s: string, k: nat)
    requires AllDigits(s) && k < |s|
    ensures IsDigit(s[k])
  {
    if k < |s| - 1 {
      DigitAt(s[..|s| - 1], k);
    }
  }

  /** A digit string holds no character that is not a digit. */
  lemma {:induction false} DigitsExclude(s: string, c: char)
    requires AllDigits(s) && !IsDigit(c)
    ensures c !in s
  {
    if s != [] {
      DigitsExclude(s[..|s| - 1], c);
      assert s == s[..|s| - 1] + [s[|s| - 1]];
    }
  }

  /** The number a string of decimal digits denotes, most significant first. */
  function DigitsValue(s: string): nat
    requires AllDigits(s)
  {
    if s == [] then 0
    else DigitsValue(s[..|s| - 1]) * 10 + (s[|s| - 1] - '0') as nat
  }

  /**
   * Python's `float(text)` on unsigned decimal text: digits, optionally a
   * point and more digits, at least one digit in all ("5.", ".5" and "5"
   * are accepted, "." and "" are not).
   */
  function ParseUnsigned(s: string): (r: Option<real>)
    ensures r.Some? ==> r.value >= 0.0
    ensures r.Some? ==> |s| > 0
  {
    if '.' in s then
      var i := Text.IndexOf(s, '.');
      var whole, frac := s[..i], s[i + 1..];
      if AllDigits(whole) && AllDigits(frac) && |whole| + |frac| > 0 then
        Some(DigitsValue(whole) as real + Fraction(DigitsValue(frac), |frac|))
      else
        None
    else if |s| > 0 && AllDigits(s) then
      Some(DigitsValue(s) as real)
    else
      None
  }

  /** `digits` read as the `width` digits after a decimal point. */
  function Fraction(digits: nat, width: nat): real
  {
    Scaled(digits as real, width)
  }

  /** x * 10^-n, one division by ten at a time. */
  function Scaled(x: real, n: nat): (r: real)
    ensures x >= 0.0 ==> r >= 0.0
  {
    if n == 0 then x else Scaled(x, n - 1) / 10.0
  }

  /** Scaling distributes over a sum. */
  lemma {:induction false} ScaledSum(a: real, b: real, n: nat)
    ensures Scaled(a + b, n) == Scaled(a, n) + Scaled(b, n)
  {
    if n > 0 {
      ScaledSum(a, b, n - 1);
    }
  }

  /** Scaling by n places is dividing by ten, then scaling by n - 1 places. */
  lemma {:induction false} ScaledFirst(x: real, n: nat)
    requires n > 0
    ensures Scaled(x, n) == Scaled(x / 10.0, n - 1)
  {
    if n > 1 {
      ScaledFirst(x, n - 1);
    }
  }

  /** Scaling by the same power of ten keeps distinct numbers distinct. */
  lemma {:induction false} ScaledInjective(x: real, y: real, n: nat)
    requires x != y
    ensures Scaled(x, n) != Scaled(y, n)
  {
    if n > 0 {
      ScaledInjective(x, y, n - 1);
    }
  }

  /** Scaling commutes with negation. */
  lemma {:induction false} ScaledNegated(x: real, n: nat)
    ensures Scaled(-x, n) == -Scaled(x, n)
  {
    if n > 0 {
      ScaledNegated(x, n - 1);
    }
  }

  /** Python's `float(text)` on decimal text with an optional sign. */
  function ParseFloat(s: string): (r: Option<real>)
    ensures r.Some? ==> |s| > 0 && (r.value < 0.0 ==> s[0] == '-')
  {
    if |s| > 0 && (s[0] == '-' || s[0] == '+') then
      match ParseUnsigned(s[1..])
      case Some(v) => Some(if s[0] == '-' then -v else v)
      case None => None
    else
      ParseUnsigned(s)
  }

  /** A decimal literal: `units` in steps of 10^-scale (30.5850 is Fixed(305850, 4)). */
  datatype Fixed = Fixed(units: int, scale: nat)

  function Value(f: Fixed): real
  {
    Scaled(f.units as real, f.scale)
  }

  /** Literals with the same number of decimals and different digits have different values. */
  lemma ValueInjective(f: Fixed, g: Fixed)
    requires f.scale == g.scale && f.units != g.units
    ensures Value(f) != Value(g)
  {
    ScaledInjective(f.units as real, g.units as real, f.scale);
  }

  function DigitChar(d: nat): (c: char)
    requires d < 10
    ensures IsDigit(c) && (c - '0') as nat == d
  {
    ('0' as int + d) as char
  }

  /** The shortest decimal digits of `n` ("0" for zero). */
  function NatText(n: nat): (s: string)
    ensures |s| > 0 && AllDigits(s)
  {
    if n < 10 then [DigitChar(n)] else NatText(n / 10) + [DigitChar(n % 10)]
  }

  /** `m` with its last `n` decimal digits dropped. */
  function Shifted(m: nat, n: nat): nat
  {
    if n == 0 then m else Shifted(m / 10, n - 1)
  }

  /** The last `width` decimal digits of `m`, padded with leading zeros. */
  function LowDigits(m: nat, width: nat): (s: string)
    ensures |s| == width && AllDigits(s)
  {
    if width == 0 then "" else LowDigits(m / 10, width - 1) + [DigitChar(m % 10)]
  }

  /** The literal as text: sign, whole part, and `scale` fraction digits after a point. */
  function Render(f: Fixed): string
  {
    if f.units < 0 then "-" + UnsignedText(Magnitude(f), f.scale) else UnsignedText(Magnitude(f), f.scale)
  }

  function Magnitude(f: Fixed): nat
  {
    if f.units < 0 then -f.units else f.units
  }

  /** The text of the unsigned literal `m` * 10^-scale. */
  function UnsignedText(m: nat, scale: nat): string
  {
    WholeText(m, scale) + FractionText(m, scale)
  }

  /** The digits before the point. */
  function WholeText(m: nat, scale: nat): string
  {
    NatText(Shifted(m, scale))
  }

  /** The point and the `scale` digits after it; nothing when `scale` is 0. */
  function FractionText(m: nat, scale: nat): string
  {
    if scale == 0 then "" else "." + LowDigits(m, scale)
  }

  lemma {:induction false} NatTextValue(n: nat)
    ensures DigitsValue(NatText(n)) == n
  {
    if n >= 10 {
      var s := NatText(n);
      assert s[..|s| - 1] == NatText(n / 10);
      NatTextValue(n / 10);
    }
  }

  /** The number the last `width` decimal digits of `m` stand for. */
  function LowValue(m: nat, width: nat): nat
  {
    if width == 0 then 0 else LowValue(m / 10, width - 1) * 10 + m % 10
  }

  /** The padded low digits read back as their number. */
  lemma {:induction false} LowDigitsValue(m: nat, width: nat)
    ensures DigitsValue(LowDigits(m, width)) == LowValue(m, width)
  {
    if width > 0 {
      var s := LowDigits(m, width);
      assert s[..|s| - 1] == LowDigits(m / 10, width - 1);
      LowDigitsValue(m / 10, width - 1);
    }
  }

  /**
   * The whole part plus the scaled low digits is the literal's value:
   * splitting the digits at the point keeps the number.
   */
  lemma {:induction false} WholeAndFraction(m: nat, scale: nat)
    ensures Shifted(m, scale) as real + Fraction(LowValue(m, scale), scale) == Scaled(m as real, scale)
  {
    if scale > 0 {
      var high := m / 10;
      WholeAndFraction(high, scale - 1);
      DigitStep(high as real, LowValue(high, scale - 1) as real, (m % 10) as real,
        scale, Shifted(high, scale - 1) as real);
    }
  }

  /** One more digit below the point, on both sides of the split, keeps it exact. */
  lemma DigitStep(high: real, low: real, digit: real, n: nat, whole: real)
    requires n > 0
    requires whole + Scaled(low, n - 1) == Scaled(high, n - 1)
    ensures whole + Scaled(low * 10.0 + digit, n) == Scaled(high * 10.0 + digit, n)
  {
    ScaledFirst(low * 10.0 + digit, n);
    ScaledSum(low, digit / 10.0, n - 1);
    ScaledFirst(high * 10.0 + digit, n);
    ScaledSum(high, digit / 10.0, n - 1);
  }

  /** A digit string holds no point. */
  lemma DigitsHaveNoPoint(s: string)
    requires AllDigits(s)
    ensures '.' !in s
  {
    DigitsExclude(s, '.');
  }

  /** Parsing the text of an unsigned literal gives back its value. */
  lemma ParseUnsignedText(m: nat, scale: nat)
    ensures ParseUnsigned(UnsignedText(m, scale)).Some?
    ensures ParseUnsigned(UnsignedText(m, scale)).value == Scaled(m as real, scale)
  {
    if scale == 0 {
      ParseIntegerText(m);
    } else {
      ParseScaledText(m, scale);
    }
  }

  lemma ParseIntegerText(m: nat)
    ensures ParseUnsigned(UnsignedText(m, 0)).Some?
    ensures ParseUnsigned(UnsignedText(m, 0)).value == m as real
  {
    assert UnsignedText(m, 0) == NatText(m);
    ParseWhole(NatText(m));
    NatTextValue(m);
  }

  lemma ParseScaledText(m: nat, scale: nat)
    requires scale > 0
    ensures ParseUnsigned(UnsignedText(m, scale)).Some?
    ensures ParseUnsigned(UnsignedText(m, scale)).value == Scaled(m as real, scale)
  {
    var whole, frac := NatText(Shifted(m, scale)), LowDigits(m, scale);
    assert UnsignedText(m, scale) == whole + ['.'] + frac;
    ParseFraction(whole, frac);
    NatTextValue(Shifted(m, scale));
    LowDigitsValue(m, scale);
    WholeAndFraction(m, scale);
  }

  /** A non-empty digit string parses to the number it denotes. */
  lemma ParseWhole(whole: string)
    requires AllDigits(whole) && |whole| > 0
    ensures ParseUnsigned(whole).Some? && ParseUnsigned(whole).value == DigitsValue(whole) as real
  {
    DigitsHaveNoPoint(whole);
  }

  /** Digits, a point and digits parse to the whole part plus the scaled fraction. */
  lemma ParseFraction(whole: string, frac: string)
    requires AllDigits(whole) && AllDigits(frac) && |whole| + |frac| > 0
    ensures ParseUnsigned(whole + ['.'] + frac).Some?
    ensures ParseUnsigned(whole + ['.'] + frac).value
         == DigitsValue(whole) as real + Fraction(DigitsValue(frac), |frac|)
  {
    var s := whole + ['.'] + frac;
    DigitsHaveNoPoint(whole);
    Text.IndexOfAfter(whole, '.', frac);
    var i := Text.IndexOf(s, '.');
    assert i == |whole|;
    assert s[..i] == whole;
    assert s[i + 1..] == frac;
    assert DigitsValue(s[..i]) == DigitsValue(whole);
    assert DigitsValue(s[i + 1..]) == DigitsValue(frac);
  }

  /** The text after an optional leading sign: what ParseUnsigned is given. */
  function Unsigned(s: string): string
  {
    if |s| > 0 && (s[0] == '-' || s[0] == '+') then s[1..] else s
  }

  /** Text that `float()` accepts holds only digits and points, with a sign allowed only in front. */
  lemma {:induction false} ParseFloatAlphabet(s: string, k: nat)
    requires k < |s| && ParseFloat(s).Some?
    ensures IsDigit(s[k]) || s[k] == '.' || (k == 0 && (s[k] == '-' || s[k] == '+'))
  {
    var u := Unsigned(s);
    var off := |s| - |u|;
    if k >= off {
      assert u[k - off] == s[k];
      UnsignedAlphabet(u, k - off);
    }
  }

  /** Unsigned text that is accepted holds only digits and points. */
  lemma {:induction false} UnsignedAlphabet(u: string, m: nat)
    requires m < |u| && ParseUnsigned(u).Some?
    ensures IsDigit(u[m]) || u[m] == '.'
  {
    if '.' in u {
      var i := Text.IndexOf(u, '.');
      if m < i {
        DigitAt(u[..i], m);
      } else if m > i {
        DigitAt(u[i + 1..], m - i - 1);
      }
    } else {
      DigitAt(u, m);
    }
  }

  /** Text that `float()` accepts holds at most one point. */
  lemma {:induction false} ParseFloatOnePoint(s: string, i: nat, j: nat)
    requires i < j < |s| && ParseFloat(s).Some?
    requires s[i] == '.'
    ensures s[j] != '.'
  {
    var u := Unsigned(s);
    var off := |s| - |u|;
    ParseFloatAlphabet(s, i);
    assert u[i - off] == s[i] && u[j - off] == s[j];
    UnsignedOnePoint(u, i - off, j - off);
  }

  /** Unsigned text that is accepted holds at most one point. */
  lemma {:induction false} UnsignedOnePoint(u: string, i: nat, j: nat)
    requires i < j < |u| && ParseUnsigned(u).Some?
    requires u[i] == '.'
    ensures u[j] != '.'
  {
    var p := Text.IndexOf(u, '.');
    DigitAt(u[p + 1..], j - p - 1);
  }

  /** Text that `float()` accepts holds at least one digit. */
  lemma {:induction false} ParseFloatHasDigit(s: string)
    requires ParseFloat(s).Some?
    ensures exists k :: 0 <= k < |s| && IsDigit(s[k])
  {
    var u := Unsigned(s);
    var off := |s| - |u|;
    assert forall m :: 0 <= m < |u| ==> u[m] == s[m + off];
    if '.' in u {
      var i := Text.IndexOf(u, '.');
      if i > 0 {
        DigitAt(u[..i], 0);
        assert IsDigit(s[off]);
      } else {
        DigitAt(u[i + 1..], 0);
        assert IsDigit(s[off + i + 1]);
      }
    } else {
      DigitAt(u, 0);
      assert IsDigit(s[off]);
    }
  }

  /**
   * Digits, a point and digits, at least one digit in all, are accepted
   * with or without a sign: the whole part plus the scaled fraction, negated
   * after a minus.
   */
  lemma {:induction false} ParseFloatDecimal(whole: string, frac: string)
    requires AllDigits(whole) && AllDigits(frac) && |whole| + |frac| > 0
    ensures ParseFloat(whole + ['.'] + frac) == Some(DecimalValue(whole, frac))
    ensures ParseFloat("+" + (whole + ['.'] + frac)) == Some(DecimalValue(whole, frac))
    ensures ParseFloat("-" + (whole + ['.'] + frac)) == Some(-DecimalValue(whole, frac))
  {
    ParseFraction(whole, frac);
    DecimalStart(whole, frac);
    ParseSigns(whole + ['.'] + frac, DecimalValue(whole, frac));
  }

  /** The value of digits, a point and digits: the whole part plus the scaled fraction. */
  function DecimalValue(whole: string, frac: string): real
    requires AllDigits(whole) && AllDigits(frac)
  {
    DigitsValue(whole) as real + Fraction(DigitsValue(frac), |frac|)
  }

  /** Decimal text starts with a digit, or with its point when the whole part is empty. */
  lemma {:induction false} DecimalStart(whole: string, frac: string)
    requires AllDigits(whole)
    ensures var t := whole + ['.'] + frac; IsDigit(t[0]) || t[0] == '.'
  {
    if |whole| > 0 {
      DigitAt(whole, 0);
    }
  }

  /** Digits alone are accepted with or without a sign, as the number they denote. */
  lemma {:induction false} ParseFloatInteger(whole: string)
    requires AllDigits(whole) && |whole| > 0
    ensures var v := DigitsValue(whole) as real;
      && ParseFloat(whole) == Some(v)
      && ParseFloat("+" + whole) == Some(v)
      && ParseFloat("-" + whole) == Some(-v)
  {
    ParseWhole(whole);
    DigitAt(whole, 0);
    ParseSigns(whole, DigitsValue(whole) as real);
  }

  /** Unsigned text that starts with a digit or a point reads the same alone or after "+", and negated after "-". */
  lemma {:induction false} ParseSigns(body: string, v: real)
    requires ParseUnsigned(body) == Some(v)
    requires IsDigit(body[0]) || body[0] == '.'
    ensures ParseFloat(body) == Some(v)
    ensures ParseFloat("+" + body) == Some(v)
    ensures ParseFloat("-" + body) == Some(-v)
  {
    assert ("+" + body)[1..] == body;
    ParseMinus(body, v);
  }

  /** Round trip: `float()` applied to a rendered literal gives the literal's value. */
  lemma ParseRender(f: Fixed)
    ensures ParseFloat(Render(f)) == Some(Value(f))
  {
    if f.units < 0 {
      ParseRenderNeg(f);
    } else {
      ParseRenderNonNeg(f);
    }
  }

  /** The negative case: a minus sign before the text of the magnitude. */
  lemma ParseRenderNeg(f: Fixed)
    requires f.units < 0
    ensures ParseFloat(Render(f)) == Some(Value(f))
  {
    ParseNegatedValue(f);
  }

  /** A minus sign before the text of the magnitude parses to the negative literal's value. */
  lemma ParseNegatedValue(f: Fixed)
    requires f.units < 0
    ensures ParseFloat("-" + UnsignedText(Magnitude(f), f.scale)) == Some(Value(f))
  {
    ValueNegative(f);
    ParseNegatedText(Magnitude(f), f.scale, Scaled((-f.units) as real, f.scale));
  }

  /** The non-negative case: the unsigned text alone. */
  lemma ParseRenderNonNeg(f: Fixed)
    requires f.units >= 0
    ensures ParseFloat(Render(f)) == Some(Value(f))
  {
    var m := Magnitude(f);
    assert m == f.units;
    ParseUnsignedText(m, f.scale);
    DigitAt(WholeText(m, f.scale), 0);
    ParsePlain(UnsignedText(m, f.scale));
  }

  /** A minus sign before the text of an unsigned literal parses to its negated value. */
  lemma ParseNegatedText(m: nat, scale: nat, v: real)
    requires v == Scaled(m as real, scale)
    ensures ParseFloat("-" + UnsignedText(m, scale)) == Some(-v)
  {
    ParseUnsignedText(m, scale);
    ParseMinus(UnsignedText(m, scale), v);
  }

  lemma ValueNegative(f: Fixed)
    requires f.units < 0
    ensures Value(f) == -Scaled((-f.units) as real, f.scale)
  {
    ScaledNegated((-f.units) as real, f.scale);
  }

  /** Text starting with a digit parses as unsigned text. */
  lemma ParsePlain(body: string)
    requires ParseUnsigned(body).Some? && IsDigit(body[0])
    ensures ParseFloat(body) == ParseUnsigned(body)
  {
  }

  /** A leading minus sign negates what the rest parses to. */
  lemma ParseMinus(body: string, v: real)
    requires ParseUnsigned(body) == Some(v)
    ensures ParseFloat("-" + body) == Some(-v)
  {
    var t := "-" + body;
    assert t[0] == '-' && t[1..] == body;
  }

  /** Rendered literals hold no comma, so a comma can separate two of them. */
  lemma RenderHasNoComma(f: Fixed)
    ensures ',' !in Render(f)
  {
    UnsignedTextHasNoComma(Magnitude(f), f.scale);
  }

  lemma UnsignedTextHasNoComma(m: nat, scale: nat)
    ensures ',' !in UnsignedText(m, scale)
  {
    DigitsExclude(WholeText(m, scale), ',');
    if scale > 0 {
      DigitsExclude(LowDigits(m, scale), ',');
    }
  }
}
