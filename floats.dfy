/** Floating-point tokens.  A token that `float()` accepts is kept as the text
    it was read from, together with the decimal value that text denotes;
    writing a float back writes that text.  Binary rounding is not modelled. */
module Floats {
  import opened Wrappers
  import opened Strings

  /** The float read from `text`: (-1)^neg * mant * 10^exp. */
  datatype Real = Real(text: string, neg: bool, mant: nat, exp: int)

  function Pow10(n: nat): (r: nat)
    ensures r >= 1
  {
    if n == 0 then 1 else 10 * Pow10(n - 1)
  }

  /** The unsigned part of a float literal, read from position i on: digits
      with at most one `.` (at least one digit in all), then, after an `e` or
      `E`, an integer exponent.  `acc` is the number the digits read so far
      denote, `point` whether the `.` was read, `frac` how many digits came
      after it and `digit` whether any digit was read.  Gives the digits as
      one number and the power of ten to scale it by. */
  function ScanMagnitude(s: string, i: nat, acc: nat, point: bool, frac: nat, digit: bool): Result<(nat, int)>
    requires i <= |s|
    decreases |s| - i
  {
    if i == |s| then
      if digit then Ok((acc, 0 - frac)) else Err(ValueError)
    else if IsDigit(s[i]) then
      ScanMagnitude(s, i + 1, acc * 10 + DigitValue(s[i]), point, if point then frac + 1 else frac, true)
    else if s[i] == '.' && !point then
      ScanMagnitude(s, i + 1, acc, true, frac, digit)
    else if (s[i] == 'e' || s[i] == 'E') && digit then
      match ParseInt(s[i + 1..])
      case Ok(e) => Ok((acc, e - frac))
      case Err(_) => Err(ValueError)
    else Err(ValueError)
  }

  function ParseMagnitude(body: string): Result<(nat, int)>
  {
    ScanMagnitude(body, 0, 0, false, 0, false)
  }

  /** `float(s)` for decimal literals with an optional sign.  Python also
      accepts `inf`, `nan`, white space and `_` between digits; those are not
      modelled and such text is refused. */
  function ParseFloat(s: string): (r: Result<Real>)
    ensures r.Ok? ==> r.value.text == s
    ensures r.Err? ==> r.error == ValueError
  {
    var signed := |s| > 0 && (s[0] == '-' || s[0] == '+');
    var body := if signed then s[1..] else s;
    match ParseMagnitude(body)
    case Ok((mant, exp)) => Ok(Real(s, |s| > 0 && s[0] == '-', mant, exp))
    case Err(_) => Err(ValueError)
  }

  /** `x <= 0.0` */
  predicate NonPositive(r: Real) { r.neg || r.mant == 0 }

  /** The least magnitude `float()` rounds to infinity: halfway between the
      largest double, 2^1024 - 2^971, and 2^1024 (the tie rounds to even,
      which is infinity): 2^1024 - 2^970. */
  const FLOAT_OVERFLOW: int := 0xFFFF_FFFF_FFFF_FC00_0000_0000_0000_0000_0000_0000_0000_0000_0000_0000_0000_0000_0000_0000_0000_0000_0000_0000_0000_0000_0000_0000_0000_0000_0000_0000_0000_0000_0000_0000_0000_0000_0000_0000_0000_0000_0000_0000_0000_0000_0000_0000_0000_0000_0000_0000_0000_0000_0000_0000_0000_0000_0000_0000_0000_0000_0000_0000_0000_0000

  /** `float(text)` is an infinity although the text is a finite literal. */
  predicate Overflows(r: Real)
  {
    if r.exp >= 0 then r.mant * Pow10(r.exp) >= FLOAT_OVERFLOW else r.mant >= FLOAT_OVERFLOW * Pow10(-r.exp)
  }

  function LowerChar(c: char): char
  {
    if 'A' <= c <= 'Z' then (c as int + 32) as char else c
  }

  /** ASCII lower case. */
  function Lower(s: string): (r: string)
    ensures |r| == |s|
  {
    seq(|s|, i requires 0 <= i < |s| => LowerChar(s[i]))
  }

  /** A spelling of infinity `float()` accepts: an optional sign, then
      `inf` or `infinity` in any case. */
  predicate InfText(s: string)
  {
    var body := if |s| > 0 && (s[0] == '-' || s[0] == '+') then s[1..] else s;
    Lower(body) == "inf" || Lower(body) == "infinity"
  }

  /** No digit other than 0 comes before the exponent, from position i on. */
  predicate ZeroMantissaFrom(s: string, i: nat)
    decreases |s| - i
  {
    i >= |s| || s[i] == 'e' || s[i] == 'E' || ((!IsDigit(s[i]) || s[i] == '0') && ZeroMantissaFrom(s, i + 1))
  }

  /** The text of a float at most 0: a leading '-', or no digit but 0
      before the exponent. */
  predicate NonPositiveText(s: string)
  {
    (|s| > 0 && s[0] == '-') || ZeroMantissaFrom(s, 0)
  }

  lemma {:induction false} ScanZero(s: string, i: nat, acc: nat, point: bool, frac: nat, digit: bool)
    requires i <= |s| && ScanMagnitude(s, i, acc, point, frac, digit).Ok?
    ensures ScanMagnitude(s, i, acc, point, frac, digit).value.0 == 0 <==> acc == 0 && ZeroMantissaFrom(s, i)
    decreases |s| - i
  {
    if i < |s| {
      if IsDigit(s[i]) {
        ScanZero(s, i + 1, acc * 10 + DigitValue(s[i]), point, if point then frac + 1 else frac, true);
      } else if s[i] == '.' && !point {
        ScanZero(s, i + 1, acc, true, frac, digit);
      }
    }
  }

  lemma {:induction false} ZeroMantissaShift(s: string, i: nat)
    requires 1 <= i <= |s|
    ensures ZeroMantissaFrom(s, i) == ZeroMantissaFrom(s[1..], i - 1)
    decreases |s| - i
  {
    if i < |s| {
      assert s[i] == s[1..][i - 1];
      ZeroMantissaShift(s, i + 1);
    }
  }

  /** A float read from a text is at most 0 exactly when the text says so. */
  lemma FloatNonPositive(s: string)
    requires ParseFloat(s).Ok?
    ensures NonPositive(ParseFloat(s).value) <==> NonPositiveText(s)
  {
    var signed := |s| > 0 && (s[0] == '-' || s[0] == '+');
    var body := if signed then s[1..] else s;
    ScanZero(body, 0, 0, false, 0, false);
    if signed {
      ZeroMantissaShift(s, 1);
    }
  }

  /** The size of `x` with its fraction dropped. */
  function TruncMagnitude(mant: nat, exp: int): int
  {
    if exp >= 0 then mant * Pow10(exp) else mant / Pow10(-exp)
  }

  /** `int(x)`: truncation toward zero. */
  function Trunc(r: Real): int
  {
    if r.neg then 0 - TruncMagnitude(r.mant, r.exp) else TruncMagnitude(r.mant, r.exp)
  }

  /** The characters a float literal is made of. */
  predicate FloatChar(c: char) { IsDigit(c) || c == '-' || c == '+' || c == '.' || c == 'e' || c == 'E' }

  predicate FloatChars(s: string) { forall i :: 0 <= i < |s| ==> FloatChar(s[i]) }

  lemma ParseIntChars(t: string)
    requires ParseInt(t).Ok?
    ensures FloatChars(t)
  {
    if |t| > 0 && (t[0] == '-' || t[0] == '+') {
      assert forall i :: 1 <= i < |t| ==> t[i] == t[1..][i - 1];
    }
  }

  lemma {:induction false} ScanChars(s: string, i: nat, acc: nat, point: bool, frac: nat, digit: bool)
    requires i <= |s| && ScanMagnitude(s, i, acc, point, frac, digit).Ok?
    ensures forall j :: i <= j < |s| ==> FloatChar(s[j])
    decreases |s| - i
  {
    if i < |s| {
      if IsDigit(s[i]) {
        ScanChars(s, i + 1, acc * 10 + DigitValue(s[i]), point, if point then frac + 1 else frac, true);
      } else if s[i] == '.' && !point {
        ScanChars(s, i + 1, acc, true, frac, digit);
      } else {
        var t := s[i + 1..];
        ParseIntChars(t);
        assert forall j :: i < j < |s| ==> s[j] == t[j - i - 1];
      }
    }
  }

  lemma MagnitudeChars(body: string)
    requires ParseMagnitude(body).Ok?
    ensures FloatChars(body)
  {
    ScanChars(body, 0, 0, false, 0, false);
  }

  /** What `float` accepts is made only of digits, signs, `.` and exponent
      markers, so it holds no field separator. */
  lemma ParseFloatChars(s: string)
    requires ParseFloat(s).Ok?
    ensures FloatChars(s)
  {
    var signed := |s| > 0 && (s[0] == '-' || s[0] == '+');
    if signed {
      MagnitudeChars(s[1..]);
      assert forall i :: 1 <= i < |s| ==> s[i] == s[1..][i - 1];
    } else {
      MagnitudeChars(s);
    }
  }

  lemma {:induction false} ScanDigits(s: string, i: nat)
    requires IsDecimal(s) && i <= |s|
    ensures ScanMagnitude(s, i, DigitsValue(s[..i]), false, 0, i > 0) == Ok((DigitsValue(s), 0))
    decreases |s| - i
  {
    if i == |s| {
      assert s[..i] == s;
    } else {
      assert s[..i + 1][..i] == s[..i];
      ScanDigits(s, i + 1);
    }
  }

  lemma MagnitudeOfDigits(digits: string)
    requires IsDecimal(digits)
    ensures ParseMagnitude(digits) == Ok((DigitsValue(digits), 0))
  {
    ScanDigits(digits, 0);
  }

  /** `str(n)` is a sign, when n is negative, then the digits of |n|. */
  lemma IntTextParts(n: int)
    ensures var s := IntToString(n);
      |s| > 0 && (s[0] == '-' <==> n < 0) && s[0] != '+' &&
      (if n < 0 then s[1..] else s) == NatToString(if n < 0 then -n else n)
  {
    if n < 0 {
      assert IntToString(n)[1..] == NatToString(-n);
    }
  }

  /** An integer written by `str` is a float literal whose truncation is that integer. */
  lemma FloatOfIntText(n: int)
    ensures ParseFloat(IntToString(n)).Ok?
    ensures Trunc(ParseFloat(IntToString(n)).value) == n
    ensures ParseFloat(IntToString(n)).value.mant == (if n < 0 then -n else n)
    ensures ParseFloat(IntToString(n)).value.exp == 0
  {
    var a: nat := if n < 0 then -n else n;
    IntTextParts(n);
    MagnitudeOfDigits(NatToString(a));
    assert Pow10(0) == 1;
    assert TruncMagnitude(a, 0) == a;
  }
}
