/**
 * TRX amounts. On chain every amount is an integer number of sun (1 TRX = 1,000,000 sun);
 * in chat commands an amount is a decimal literal that the bot reads with Python's `float()`.
 * Here the literal is kept exactly, as a sign, a mantissa and a decimal scale.
 */
module Amounts {
  import opened Wrappers
  import opened Text

  /** The value (-1)^negative * mantissa / 10^scale. */
  datatype Amount = Amount(negative: bool, mantissa: nat, scale: nat)

  const SunPerTrx: nat := 1000000

  function Pow10(n: nat): (r: nat)
    ensures r >= 1
  {
    if n == 0 then 1 else 10 * Pow10(n - 1)
  }

  /** The mantissa with its sign. */
  function Signed(a: Amount): int {
    if a.negative then -(a.mantissa as int) else a.mantissa
  }

  /** Digits with at most one decimal point and at least one digit: what `float()` reads after the sign. */
  predicate DecimalLiteral(body: string) {
    && (forall i :: 0 <= i < |body| ==> IsDigit(body[i]) || body[i] == '.')
    && (forall i, j :: 0 <= i < j < |body| ==> !(body[i] == '.' && body[j] == '.'))
    && (exists i :: 0 <= i < |body| && IsDigit(body[i]))
  }

  /** The literal behind one leading sign, if there is one. */
  function Unsigned(s: string): string {
    if |s| > 0 && (s[0] == '-' || s[0] == '+') then s[1..] else s
  }

  /**
   * Whether `float(s)` succeeds on a plain decimal literal, and the value it reads: an optional
   * sign, then digits with at most one decimal point and at least one digit ("5", "-0.25", ".5",
   * "5.").
   */
  function ParseAmount(s: string): (r: Option<Amount>)
    ensures r.Some? <==> DecimalLiteral(Unsigned(s))
    ensures r.Some? ==> (r.value.negative <==> s[0] == '-')
    ensures r.Some? ==> ParseUnsigned(Unsigned(s)) == Some((r.value.mantissa, r.value.scale))
  {
    var signed := |s| > 0 && (s[0] == '-' || s[0] == '+');
    match ParseUnsigned(Unsigned(s))
    case None => None
    case Some((mantissa, scale)) => Some(Amount(signed && s[0] == '-', mantissa, scale))
  }

  /**
   * The unsigned part of a literal: accepted exactly when it is a decimal literal, and then read
   * as the value of its digits with the point taken out, and the number of digits behind the point.
   */
  function ParseUnsigned(body: string): (r: Option<(nat, nat)>)
    ensures r.Some? <==> DecimalLiteral(body)
    ensures r.Some? ==> AllDigits(Remove(body, '.')) && r.value.0 == DigitsValue(Remove(body, '.'))
    ensures r.Some? && '.' !in body ==> r.value.1 == 0
    ensures r.Some? && '.' in body ==> r.value.1 == |body| - 1 - IndexOf(body, '.').value
  {
    match IndexOf(body, '.')
    case None =>
      NoPoint(body);
      if body != "" && AllDigits(body) then Some((DigitsValue(body), 0)) else None
    case Some(k) =>
      var whole, frac := body[..k], body[k + 1..];
      PointAt(body, k);
      if |whole| + |frac| > 0 && AllDigits(whole + frac) then
        Some((DigitsValue(whole + frac), |frac|))
      else None
  }

  /** Without a point, a literal is a non-empty run of digits. */
  lemma NoPoint(body: string)
    requires '.' !in body
    ensures DecimalLiteral(body) <==> body != "" && AllDigits(body)
  {
    if body != "" && AllDigits(body) {
      assert IsDigit(body[0]);
    }
  }

  /** With its first point at `k`, a literal is digits on both sides, at least one of them. */
  lemma PointAt(body: string, k: nat)
    requires k < |body| && body[k] == '.' && '.' !in body[..k]
    ensures var digits := body[..k] + body[k + 1..];
      && (DecimalLiteral(body) <==> |digits| > 0 && AllDigits(digits))
      && (AllDigits(digits) ==> Remove(body, '.') == digits)
  {
    var digits := body[..k] + body[k + 1..];
    if DecimalLiteral(body) {
      LiteralAroundPoint(body, k);
    }
    if AllDigits(digits) {
      if |digits| > 0 {
        DigitsAroundPoint(body, k);
      }
      RemovePoint(body, k);
    }
  }

  /** Position `i` of `body` other than `k` is position `i` or `i - 1` of the digits around `k`. */
  lemma AroundPoint(body: string, k: nat)
    requires k < |body|
    ensures var digits := body[..k] + body[k + 1..];
      forall i :: 0 <= i < |body| && i != k ==> body[i] == digits[if i < k then i else i - 1]
  {
  }

  lemma LiteralAroundPoint(body: string, k: nat)
    requires k < |body| && body[k] == '.' && DecimalLiteral(body)
    ensures var digits := body[..k] + body[k + 1..];
      |digits| > 0 && AllDigits(digits)
  {
    var digits := body[..k] + body[k + 1..];
    AroundPoint(body, k);
    forall i | 0 <= i < |digits| ensures IsDigit(digits[i]) {
      var j := if i < k then i else i + 1;
      assert digits[i] == body[j];
      assert j != k && body[k] == '.';
    }
    var d :| 0 <= d < |body| && IsDigit(body[d]);
    assert d != k;
  }

  lemma DigitsAroundPoint(body: string, k: nat)
    requires k < |body| && body[k] == '.'
    requires var digits := body[..k] + body[k + 1..]; |digits| > 0 && AllDigits(digits)
    ensures DecimalLiteral(body)
  {
    var digits := body[..k] + body[k + 1..];
    AroundPoint(body, k);
    var d := if k > 0 then 0 else 1;
    assert IsDigit(body[d]);
    forall i, j | 0 <= i < j < |body| ensures !(body[i] == '.' && body[j] == '.') {
      assert i == k || IsDigit(body[i]);
      assert j == k || IsDigit(body[j]);
    }
  }

  lemma RemovePoint(body: string, k: nat)
    requires k < |body| && body[k] == '.'
    requires AllDigits(body[..k] + body[k + 1..])
    ensures Remove(body, '.') == body[..k] + body[k + 1..]
  {
    var whole, frac := body[..k], body[k + 1..];
    assert '.' !in whole by {
      assert forall i :: 0 <= i < |whole| ==> whole[i] == (whole + frac)[i];
    }
    assert '.' !in frac by {
      assert forall i :: 0 <= i < |frac| ==> frac[i] == (whole + frac)[k + i];
    }
    assert body == whole + ("." + frac);
    RemoveConcat(whole, "." + frac, '.');
    RemoveConcat(".", frac, '.');
  }

  /** `a` written out as a decimal literal: its sign, then its unsigned part. */
  function AmountToString(a: Amount): string {
    (if a.negative then "-" else "") + UnsignedText(a.mantissa, a.scale)
  }

  /** The mantissa's digits, padded with zeros, with a point `scale` digits from the end. */
  function UnsignedText(mantissa: nat, scale: nat): string {
    var digits := PadZeros(NatToString(mantissa), scale + 1);
    var split := |digits| - scale;
    if scale == 0 then digits else digits[..split] + "." + digits[split..]
  }

  /** Every amount, written out, is read back by `float()` as itself. */
  lemma AmountRoundTrip(a: Amount)
    ensures ParseAmount(AmountToString(a)) == Some(a)
  {
    var text := UnsignedText(a.mantissa, a.scale);
    var s := AmountToString(a);
    UnsignedRoundTrip(a.mantissa, a.scale);
    if a.negative {
      assert s == "-" + text;
      assert s[1..] == text;
      assert Unsigned(s) == text;
    } else {
      assert s == text;
      DigitFirstUnsigned(text);
    }
  }

  /** A literal that starts with a digit has no sign to drop. */
  lemma DigitFirstUnsigned(text: string)
    requires |text| > 0 && IsDigit(text[0])
    ensures text[0] != '-' && text[0] != '+'
    ensures Unsigned(text) == text
  {
  }

  lemma UnsignedRoundTrip(mantissa: nat, scale: nat)
    ensures var text := UnsignedText(mantissa, scale);
      IsDigit(text[0]) && ParseUnsigned(text) == Some((mantissa, scale))
  {
    var digits := PadZeros(NatToString(mantissa), scale + 1);
    NatToStringRoundTrip(mantissa);
    if scale == 0 {
      NoPoint(digits);
    } else {
      PointedRoundTrip(digits, scale);
    }
  }

  lemma PointedRoundTrip(digits: string, scale: nat)
    requires 0 < scale < |digits| && AllDigits(digits)
    ensures var split := |digits| - scale;
      var text := digits[..split] + "." + digits[split..];
      IsDigit(text[0]) && ParseUnsigned(text) == Some((DigitsValue(digits), scale))
  {
    var split := |digits| - scale;
    var whole, frac := digits[..split], digits[split..];
    var text := whole + "." + frac;
    assert text[..split] + text[split + 1..] == digits by {
      assert text[..split] == whole && text[split + 1..] == frac;
    }
    assert IndexOf(text, '.') == Some(split) by {
      assert text[..split] == whole;
      IndexOfFirst(text, '.', split);
    }
    PointAt(text, split);
    assert IsDigit(text[0]);
  }

  /** An integer written by `str()` is read back as that integer. */
  lemma ParseIntegerLiteral(i: int)
    ensures ParseAmount(IntToString(i)) == Some(Amount(i < 0, if i < 0 then -i else i, 0))
  {
    var s := IntToString(i);
    IntToStringAlphabet(i, '.');
    if i < 0 {
      assert s[1..] == NatToString(-i);
      NatToStringRoundTrip(-i);
    } else {
      NatToStringRoundTrip(i);
    }
    assert '.' !in Unsigned(s);
    NoPoint(Unsigned(s));
  }

  /** The amount in whole sun, truncated toward zero: |r| sun are at most the amount, |r| + 1 are more. */
  function ToSun(a: Amount): (r: int)
    ensures a.negative ==> r <= 0
    ensures !a.negative ==> r >= 0
    ensures var m := if r < 0 then -r else r;
      m * Pow10(a.scale) <= a.mantissa * SunPerTrx < (m + 1) * Pow10(a.scale)
  {
    if a.negative then -(SunMagnitude(a) as int) else SunMagnitude(a)
  }

  function SunMagnitude(a: Amount): nat {
    Quotient(a.mantissa * SunPerTrx, Pow10(a.scale))
  }

  /** Integer division of naturals; kept apart so that the solver sees the division alone. */
  function Quotient(x: nat, d: nat): (q: nat)
    requires d >= 1
    ensures q * d <= x < (q + 1) * d
  {
    x / d
  }

  /** `fromSun`: a whole number of sun as a TRX amount, which converts back to the same sun. */
  function FromSun(sun: nat): (a: Amount)
    ensures ToSun(a) == sun
    ensures Signed(a) * SunPerTrx == sun * Pow10(a.scale)
  {
    assert Pow10(6) == SunPerTrx;
    Amount(false, sun, 6)
  }

  /** `float(x) > float(y)` for two exact amounts, comparing them over a common denominator. */
  predicate Greater(x: Amount, y: Amount) {
    Signed(x) * Pow10(y.scale) > Signed(y) * Pow10(x.scale)
  }

  /** `float(amount) > fromSun(balance)`, the funds guard, compared exactly on the sun side. */
  predicate Exceeds(a: Amount, balanceSun: nat): (b: bool)
    ensures b <==> Greater(a, FromSun(balanceSun))
  {
    assert Pow10(6) == SunPerTrx;
    Signed(a) * SunPerTrx > balanceSun * Pow10(a.scale)
  }

  /** A negative amount never exceeds a balance: `float(amount) > fromSun(balance)` is false. */
  lemma NegativeNeverExceeds(a: Amount, balanceSun: nat)
    requires a.negative
    ensures !Exceeds(a, balanceSun)
  {
    var m: int := a.mantissa;
    assert m * SunPerTrx >= 0;
    assert balanceSun * Pow10(a.scale) >= 0;
    assert -m * SunPerTrx == -(m * SunPerTrx);
  }

  /** An amount that passes the funds guard never converts to more sun than the balance. */
  lemma {:induction false} WithinBalance(a: Amount, balanceSun: nat)
    requires !Exceeds(a, balanceSun)
    ensures ToSun(a) <= balanceSun
  {
    if !a.negative {
      var q, d := SunMagnitude(a), Pow10(a.scale);
      assert q * d <= balanceSun * d;
      AtMostByFactor(q, balanceSun, d);
    }
  }

  lemma AtMostByFactor(x: nat, b: nat, d: nat)
    requires d > 0 && x * d <= b * d
    ensures x <= b
  {
  }
}
