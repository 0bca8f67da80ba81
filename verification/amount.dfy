// Decimal amounts: formatting in the bot, validation in the sessions service, and uniform sampling.
module Amount {
  import opened Base
  import opened Text

  const MAX_INT64: int := 0x7FFF_FFFF_FFFF_FFFF
  const TWO_64: int := 0x1_0000_0000_0000_0000

  predicate IsDigit(c: char) { '0' <= c <= '9' }

  predicate Digits(s: string) { forall i | 0 <= i < |s| :: IsDigit(s[i]) }

  function DigitChar(d: nat): (c: char)
    requires d < 10
    ensures IsDigit(c) && c as int - '0' as int == d
  {
    ('0' as int + d) as char
  }

  function Pow10(k: nat): (p: nat)
    ensures p >= 1
  {
    if k == 0 then 1 else 10 * Pow10(k - 1)
  }

  // The number a digit string denotes.
  function DigitsValue(s: string): nat
    requires Digits(s)
  {
    if s == [] then 0 else DigitsValue(s[..|s| - 1]) * 10 + (s[|s| - 1] as int - '0' as int)
  }

  function FormatNat(n: nat): string {
    if n < 10 then [DigitChar(n)] else FormatNat(n / 10) + [DigitChar(n % 10)]
  }

  // strconv.FormatInt(n, 10)
  function FormatInt(n: int): string {
    if n < 0 then "-" + FormatNat(-n) else FormatNat(n)
  }

  function Zeros(k: nat): string { seq(k, _ => '0') }

  function Padded(digits: string, scale: nat): string {
    if |digits| <= scale then Zeros(scale - |digits| + 1) + digits else digits
  }

  function FormatAmount(minor: int, scale: nat): string {
    var digits := FormatInt(minor);
    if scale == 0 then digits
    else
      var padded := Padded(digits, scale);
      var point := |padded| - scale;
      padded[..point] + "." + padded[point..]
  }

  // strconv.ParseUint(s, 10, 64)
  function ParseUint(s: string): Option<nat> {
    if s == "" || !Digits(s) || DigitsValue(s) >= TWO_64 then None else Some(DigitsValue(s))
  }

  predicate HasPrefix(s: string, c: char) { |s| > 0 && s[0] == c }

  predicate ValidAmount(value: string) {
    && value != "" && |value| <= 64 && !HasPrefix(value, '+') && !HasPrefix(value, '-')
    && 'e' !in value && 'E' !in value && ' ' !in value
    && var parts := Split(value, '.');
    && |parts| <= 2 && parts[0] != "" && !(|parts[0]| > 1 && parts[0][0] == '0')
    && ParseUint(parts[0]).Some?
    && (|parts| == 2 ==> 1 <= |parts[1]| <= 18 && ParseUint(parts[1]).Some?)
  }

  // An independent reading of a decimal text: numerator and number of fraction digits.
  function ReadDecimal(text: string): Option<(nat, nat)> { ReadSplit(Split(text, '.')) }

  function ReadSplit(parts: seq<string>): Option<(nat, nat)> {
    if |parts| == 1 && parts[0] != "" && Digits(parts[0]) then Some((DigitsValue(parts[0]), 0))
    else if |parts| == 2 && parts[0] != "" && parts[1] != "" && Digits(parts[0]) && Digits(parts[1]) then
      assert Digits(parts[0] + parts[1]);
      Some((DigitsValue(parts[0]) * Pow10(|parts[1]|) + DigitsValue(parts[1]), |parts[1]|))
    else None
  }

  predicate NoSuperfluousZero(whole: string) { |whole| >= 1 && (whole[0] == '0' ==> |whole| == 1) }

  lemma {:induction false} FormatNatReadsBack(n: nat)
    ensures Digits(FormatNat(n)) && NoSuperfluousZero(FormatNat(n))
    ensures n > 0 ==> FormatNat(n)[0] != '0'
    ensures DigitsValue(FormatNat(n)) == n
  {
    var s := FormatNat(n);
    if n >= 10 {
      FormatNatReadsBack(n / 10);
      assert s[..|s| - 1] == FormatNat(n / 10);
    } else {
      assert s[..0] == [];
    }
  }

  lemma {:induction false} ValueOfConcat(a: string, b: string)
    requires Digits(a) && Digits(b)
    ensures Digits(a + b) && DigitsValue(a + b) == DigitsValue(a) * Pow10(|b|) + DigitsValue(b)
  {
    if b == [] {
      assert a + b == a;
    } else {
      var front := b[..|b| - 1];
      ValueOfConcat(a, front);
      assert (a + b)[..|a + b| - 1] == a + front;
      ShiftedSum(DigitsValue(a), Pow10(|front|), DigitsValue(front), b[|b| - 1] as int - '0' as int);
      assert Pow10(|b|) == 10 * Pow10(|front|);
    }
  }

  lemma ShiftedSum(x: int, power: int, y: int, digit: int)
    ensures (x * power + y) * 10 + digit == x * (10 * power) + (y * 10 + digit)
  {}

  lemma {:induction false} ValueOfZeros(k: nat)
    ensures Digits(Zeros(k)) && DigitsValue(Zeros(k)) == 0
  {
    if k > 0 {
      ValueOfZeros(k - 1);
      assert Zeros(k)[..k - 1] == Zeros(k - 1);
    }
  }

  lemma {:induction false} ValueBound(s: string)
    requires Digits(s)
    ensures DigitsValue(s) < Pow10(|s|)
  {
    if s != [] { ValueBound(s[..|s| - 1]); }
  }

  lemma {:induction false} LengthBound(n: nat, k: nat)
    requires k >= 1 && n < Pow10(k)
    ensures |FormatNat(n)| <= k
  {
    if n >= 10 { LengthBound(n / 10, k - 1); }
  }

  lemma SplitDigits(s: string, point: nat)
    requires Digits(s) && point <= |s|
    ensures Digits(s[..point]) && Digits(s[point..])
    ensures DigitsValue(s[..point]) * Pow10(|s| - point) + DigitsValue(s[point..]) == DigitsValue(s)
  {
    assert s == s[..point] + s[point..];
    ValueOfConcat(s[..point], s[point..]);
  }

  // FormatAmount writes `whole.fraction` with exactly `scale` fraction digits.
  lemma FormatAmountParts(minor: nat, scale: nat) returns (whole: string, fraction: string)
    requires scale > 0
    ensures FormatAmount(minor, scale) == whole + "." + fraction
    ensures Digits(whole) && Digits(fraction) && |fraction| == scale && NoSuperfluousZero(whole)
    ensures DigitsValue(whole) * Pow10(scale) + DigitsValue(fraction) == minor
    ensures |whole| <= |FormatNat(minor)|
  {
    var digits := FormatNat(minor);
    FormatNatReadsBack(minor);
    var padded := Padded(digits, scale);
    PaddedValue(digits, scale);
    var point := |padded| - scale;
    whole, fraction := padded[..point], padded[point..];
    SplitDigits(padded, point);
  }

  lemma PaddedValue(digits: string, scale: nat)
    requires Digits(digits) && NoSuperfluousZero(digits)
    ensures var padded := Padded(digits, scale);
            && Digits(padded) && DigitsValue(padded) == DigitsValue(digits) && |padded| > scale
            && NoSuperfluousZero(padded[..|padded| - scale]) && |padded| - scale <= |digits|
  {
    if |digits| <= scale {
      var padding := scale - |digits| + 1;
      ValueOfZeros(padding);
      ValueOfConcat(Zeros(padding), digits);
    }
  }

  lemma DigitsHaveNoPoint(s: string)
    requires Digits(s)
    ensures '.' !in s
  {}

  lemma ReadWhole(whole: string)
    requires Digits(whole) && whole != ""
    ensures ReadDecimal(whole) == Some((DigitsValue(whole), 0))
  {}

  lemma ReadParts(whole: string, fraction: string)
    requires Digits(whole) && Digits(fraction) && whole != "" && fraction != ""
    ensures ReadSplit([whole, fraction]) == Some((DigitsValue(whole) * Pow10(|fraction|) + DigitsValue(fraction),
                                                  |fraction|))
  {}

  // Reading the formatted text as a decimal gives minor / 10^scale exactly.
  lemma FormatAmountIsExact(minor: nat, scale: nat)
    ensures ReadDecimal(FormatAmount(minor, scale)) == Some((minor, scale))
  {
    if scale > 0 {
      var whole, fraction := FormatAmountParts(minor, scale);
      DigitsHaveNoPoint(whole);
      DigitsHaveNoPoint(fraction);
      SplitAtOneSeparator(whole, '.', fraction);
      ReadParts(whole, fraction);
    } else {
      FormatNatReadsBack(minor);
      ReadWhole(FormatNat(minor));
    }
  }

  lemma FormatAmountIsInjective(a: nat, b: nat, scale: nat)
    requires FormatAmount(a, scale) == FormatAmount(b, scale)
    ensures a == b
  {
    FormatAmountIsExact(a, scale);
    FormatAmountIsExact(b, scale);
  }

  lemma DigitsParse(s: string)
    requires Digits(s) && 1 <= |s| <= 19
    ensures ParseUint(s).Some?
  {
    ValueBound(s);
    Pow10Monotone(|s|, 19);
    Pow10Of19();
  }

  lemma Pow10Of19()
    ensures Pow10(19) == 10_000_000_000_000_000_000
  {
    assert Pow10(4) == 10_000;
    assert Pow10(8) == 100_000_000;
    assert Pow10(12) == 1_000_000_000_000;
    assert Pow10(16) == 10_000_000_000_000_000;
  }

  lemma {:induction false} Pow10Monotone(j: nat, k: nat)
    requires j <= k
    ensures Pow10(j) <= Pow10(k)
  {
    if j < k { Pow10Monotone(j, k - 1); }
  }

  predicate WellFormedWhole(whole: string) {
    Digits(whole) && NoSuperfluousZero(whole) && |whole| <= 19
  }

  lemma WholeIsValid(whole: string)
    requires WellFormedWhole(whole)
    ensures ValidAmount(whole)
  {
    DigitsParse(whole);
    assert forall c | c in whole :: IsDigit(c);
    assert Split(whole, '.') == [whole];
  }

  lemma WholeAndFractionAreValid(whole: string, fraction: string)
    requires WellFormedWhole(whole) && Digits(fraction) && 1 <= |fraction| <= 18
    ensures ValidAmount(whole + "." + fraction)
  {
    var text := whole + "." + fraction;
    DigitsParse(whole);
    DigitsParse(fraction);
    assert forall c | c in text :: IsDigit(c) || c == '.';
    SplitAtOneSeparator(whole, '.', fraction);
    assert text[0] == whole[0];
  }

  // Every amount the bot formats is accepted by the sessions service.
  lemma FormattedAmountIsValid(minor: nat, scale: nat)
    requires minor <= MAX_INT64 && scale <= 18
    ensures ValidAmount(FormatAmount(minor, scale))
  {
    FormatNatReadsBack(minor);
    Pow10Of19();
    LengthBound(minor, 19);
    if scale == 0 {
      WholeIsValid(FormatNat(minor));
    } else {
      var whole, fraction := FormatAmountParts(minor, scale);
      WholeAndFractionAreValid(whole, fraction);
    }
  }
}
