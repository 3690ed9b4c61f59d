/**
 * The JavaScript number parsing the client forms rely on: `parseInt(s)`
 * (no radix argument) and `parseFloat(s)`, each followed by `|| 0`, which
 * turns a failed parse (NaN) into 0. Numbers are exact here: a parsed
 * integer is an `int` and a parsed decimal a `real`.
 */
module Numbers {
  import opened Wrappers
  import opened Text

  /** The value of `c` read as a digit of base 36, if it is one. */
  function DigitOf(c: char): (r: Option<nat>)
    ensures r.Some? ==> r.value < 36
  {
    if '0' <= c <= '9' then Some(c as int - '0' as int)
    else if 'a' <= c <= 'z' then Some(c as int - 'a' as int + 10)
    else if 'A' <= c <= 'Z' then Some(c as int - 'A' as int + 10)
    else None
  }

  /** `c` is a digit of the given radix. */
  predicate IsDigitIn(c: char, radix: nat) {
    DigitOf(c).Some? && DigitOf(c).value < radix
  }

  /** Every character of `s` is a digit of the given radix. */
  predicate AllDigits(s: string, radix: nat) {
    forall i :: 0 <= i < |s| ==> IsDigitIn(s[i], radix)
  }

  /** The longest prefix of `s` made of digits of the radix. */
  function DigitRun(s: string, radix: nat): (r: string)
    ensures |r| <= |s| && r == s[..|r|]
    ensures AllDigits(r, radix)
    ensures |r| < |s| ==> !IsDigitIn(s[|r|], radix)
  {
    if s != [] && IsDigitIn(s[0], radix) then [s[0]] + DigitRun(s[1..], radix) else []
  }

  /** The number that a digit string denotes, most significant digit first. */
  function DigitsValue(ds: string, radix: nat): nat
    requires AllDigits(ds, radix)
  {
    if ds == [] then 0
    else DigitsValue(ds[..|ds| - 1], radix) * radix + DigitOf(ds[|ds| - 1]).value
  }

  /** A numeric literal after leading white space starts with '-'. */
  predicate IsNegative(t: string) {
    t != [] && t[0] == '-'
  }

  /** The literal with its leading sign character, if any, removed. */
  function Unsigned(t: string): (u: string)
    ensures |u| <= |t| && u == t[|t| - |u|..]
  {
    if t != [] && (t[0] == '-' || t[0] == '+') then t[1..] else t
  }

  /** The unsigned part of `parseInt`: an optional `0x`/`0X` prefix, then the longest digit run. */
  function ParseUnsignedInt(u: string): Option<nat> {
    var hex := |u| >= 2 && u[0] == '0' && (u[1] == 'x' || u[1] == 'X');
    var radix := if hex then 16 else 10;
    var digits := DigitRun(if hex then u[2..] else u, radix);
    if digits == [] then None else Some(DigitsValue(digits, radix))
  }

  /**
   * `parseInt(s)` without a radix: skip leading white space, read an
   * optional sign, switch to base 16 after a `0x` or `0X` prefix, then read
   * the longest run of digits. No digit at all gives NaN, here `None`.
   */
  function ParseInt(s: string): Option<int> {
    var t := TrimStart(s);
    match ParseUnsignedInt(Unsigned(t))
    case None => None
    case Some(v) => Some(if IsNegative(t) then -(v as int) else v)
  }

  /** `parseInt(s) || 0`: the parsed integer, or 0 when nothing parses. */
  function IntOrZero(s: string): int {
    match ParseInt(s)
    case Some(n) => n
    case None => 0
  }

  /** 10 to the power `k`. */
  function Pow10(k: nat): (r: nat)
    ensures r >= 1
  {
    if k == 0 then 1 else 10 * Pow10(k - 1)
  }

  /** 10 to a power of either sign. */
  function Pow10Int(e: int): (r: real)
    ensures r > 0.0
  {
    if e >= 0 then Pow10(e) as real else 1.0 / Pow10(-e) as real
  }

  /**
   * The exponent of a decimal literal: `e` or `E`, an optional sign and at
   * least one digit; anything else is no exponent at all, which is 0.
   */
  function ExponentPart(x: string): int {
    if |x| >= 2 && (x[0] == 'e' || x[0] == 'E') then
      var digits := DigitRun(if x[1] == '+' || x[1] == '-' then x[2..] else x[1..], 10);
      if digits == [] then 0
      else if x[1] == '-' then -(DigitsValue(digits, 10) as int)
      else DigitsValue(digits, 10)
    else
      0
  }

  /** The value of the digits after a decimal point: "05" is 5/100. */
  function FractionValue(fraction: string): real
    requires AllDigits(fraction, 10)
  {
    DigitsValue(fraction, 10) as real / Pow10(|fraction|) as real
  }

  /** The number written `whole.fraction` times ten to the power `e`. */
  function Magnitude(whole: string, fraction: string, e: int): real
    requires AllDigits(whole, 10) && AllDigits(fraction, 10)
  {
    (DigitsValue(whole, 10) as real + FractionValue(fraction)) * Pow10Int(e)
  }

  /**
   * The unsigned part of `parseFloat`: the longest prefix of the form
   * `digits [. [digits]] [exponent]` or `. digits [exponent]`.
   */
  function ParseUnsignedDecimal(u: string): Option<real> {
    var whole := DigitRun(u, 10);
    var rest := u[|whole|..];
    var dot := rest != [] && rest[0] == '.';
    var fraction := if dot then DigitRun(rest[1..], 10) else [];
    if whole == [] && fraction == [] then None
    else
      var tail := if dot then rest[1 + |fraction|..] else rest;
      Some(Magnitude(whole, fraction, ExponentPart(tail)))
  }

  /**
   * `parseFloat(s)`: skip leading white space, read an optional sign, then
   * the unsigned decimal literal. No digit before the exponent gives NaN,
   * here `None`.
   */
  function ParseFloat(s: string): Option<real> {
    var t := TrimStart(s);
    match ParseUnsignedDecimal(Unsigned(t))
    case None => None
    case Some(x) => Some(if IsNegative(t) then -x else x)
  }

  /** `parseFloat(s) || 0`: the parsed number, or 0 when nothing parses. */
  function NumberOrZero(s: string): real {
    match ParseFloat(s)
    case Some(x) => x
    case None => 0.0
  }

  /** The decimal digit character for `d`. */
  function DigitChar(d: nat): (c: char)
    requires d < 10
    ensures IsDigitIn(c, 10) && DigitOf(c) == Some(d)
  {
    ('0' as int + d) as char
  }

  /** The decimal numeral of a natural number, without leading zeros. */
  function NatToString(m: nat): string {
    if m < 10 then [DigitChar(m)] else NatToString(m / 10) + [DigitChar(m % 10)]
  }

  /** The decimal numeral of an integer, with a leading '-' when negative. */
  function IntToString(n: int): string {
    if n < 0 then "-" + NatToString(-n) else NatToString(n)
  }

  /** A numeral is a non-empty digit string that starts with '0' only for 0. */
  lemma {:induction false} NatToStringDigits(m: nat)
    ensures |NatToString(m)| >= 1 && AllDigits(NatToString(m), 10)
    ensures NatToString(m)[0] == '0' ==> m == 0
  {
    if m >= 10 {
      NatToStringDigits(m / 10);
      assert NatToString(m)[0] == NatToString(m / 10)[0];
    }
  }

  /** A numeral denotes its number. */
  lemma {:induction false} NatToStringDenotes(m: nat)
    ensures AllDigits(NatToString(m), 10) && DigitsValue(NatToString(m), 10) == m
  {
    NatToStringDigits(m);
    if m >= 10 {
      NatToStringDenotes(m / 10);
      var s := NatToString(m);
      assert s[..|s| - 1] == NatToString(m / 10);
    }
  }

  /** A digit run stops exactly where the digits stop. */
  lemma {:induction false} DigitRunOfDigits(ds: string, t: string, radix: nat)
    requires AllDigits(ds, radix)
    requires t == [] || !IsDigitIn(t[0], radix)
    ensures DigitRun(ds + t, radix) == ds
  {
    if ds == [] {
      assert ds + t == t;
    } else {
      assert (ds + t)[1..] == ds[1..] + t;
      DigitRunOfDigits(ds[1..], t, radix);
    }
  }

  /** A string that starts with a non-space character is left alone by `trimStart`. */
  lemma TrimStartNoSpace(s: string)
    requires s != [] && !IsSpace(s[0])
    ensures TrimStart(s) == s
  {
  }

  /** The unsigned part of `parseInt` reads a numeral followed by non-digit text. */
  lemma ParseUnsignedIntNumeral(m: nat, t: string)
    requires t == [] || !IsDigitIn(t[0], 10)
    requires m == 0 && t != [] ==> t[0] != 'x' && t[0] != 'X'
    ensures ParseUnsignedInt(NatToString(m) + t) == Some(m)
  {
    var numeral := NatToString(m);
    NatToStringDigits(m);
    NatToStringDenotes(m);
    var u := numeral + t;
    assert !(|u| >= 2 && u[0] == '0' && (u[1] == 'x' || u[1] == 'X')) by {
      if |u| >= 2 && u[0] == '0' {
        assert m == 0 && |numeral| == 1;
        assert u[1] == t[0];
      }
    }
    DigitRunOfDigits(numeral, t, 10);
  }

  /** A decimal digit is neither white space nor a sign. */
  lemma DigitIsPlain(c: char)
    requires IsDigitIn(c, 10)
    ensures '0' <= c <= '9' && !IsSpace(c) && c != '-' && c != '+'
  {
  }

  /** Sign handling for a negative integer's numeral. */
  lemma NegativeNumeralParts(m: nat, t: string)
    requires m > 0
    ensures var s := IntToString(-(m as int)) + t;
      TrimStart(s) == s && IsNegative(s) && Unsigned(s) == NatToString(m) + t
  {
    var s := IntToString(-(m as int)) + t;
    assert s == ['-'] + (NatToString(m) + t);
    TrimStartNoSpace(s);
  }

  /** Text that starts with a decimal digit has no leading space and no sign. */
  lemma DigitLedParts(s: string)
    requires s != [] && IsDigitIn(s[0], 10)
    ensures TrimStart(s) == s && !IsNegative(s) && Unsigned(s) == s
  {
    DigitIsPlain(s[0]);
    TrimStartNoSpace(s);
  }

  /** Sign handling for a non-negative integer's numeral. */
  lemma NonNegativeNumeralParts(m: nat, t: string)
    ensures var s := IntToString(m) + t;
      TrimStart(s) == s && !IsNegative(s) && Unsigned(s) == NatToString(m) + t
  {
    NatToStringDigits(m);
    var s := IntToString(m) + t;
    assert s[0] == NatToString(m)[0];
    DigitLedParts(s);
  }

  /** Sign handling: an integer numeral splits into its sign and its digits. */
  lemma IntToStringParts(n: int, t: string)
    ensures var s := IntToString(n) + t;
      TrimStart(s) == s && IsNegative(s) == (n < 0)
      && Unsigned(s) == NatToString(if n < 0 then -n else n) + t
  {
    if n < 0 {
      NegativeNumeralParts(-n, t);
    } else {
      NonNegativeNumeralParts(n, t);
    }
  }

  /**
   * `parseInt` reads back the numeral of any integer, negative ones
   * included, whatever non-digit text follows it (for 0, as long as that
   * text does not start with `x` or `X`, which would make a hex prefix).
   */
  lemma ParseIntReadsNumeral(n: int, t: string)
    requires t == [] || !IsDigitIn(t[0], 10)
    requires n == 0 && t != [] ==> t[0] != 'x' && t[0] != 'X'
    ensures ParseInt(IntToString(n) + t) == Some(n)
  {
    IntToStringParts(n, t);
    ParseUnsignedIntNumeral(if n < 0 then -n else n, t);
  }

  /** `parseInt(s) || 0` gives 0 for a string without any decimal digit. */
  lemma IntOrZeroWithoutDigits(s: string)
    requires forall i :: 0 <= i < |s| ==> !IsDigitIn(s[i], 10)
    ensures IntOrZero(s) == 0
  {
    var u := Unsigned(TrimStart(s));
    assert u == s[|s| - |u|..];
    if u != [] {
      assert u[0] == s[|s| - |u|];
      assert u[0] != '0';
    }
    assert DigitRun(u, 10) == [];
    assert ParseUnsignedInt(u) == None;
  }

  /** The unsigned part of `parseFloat` reads a bare numeral as its number. */
  lemma ParseUnsignedDecimalNumeral(m: nat)
    ensures ParseUnsignedDecimal(NatToString(m)) == Some(m as real)
  {
    NatToStringDenotes(m);
    DigitRunOfDigits(NatToString(m), [], 10);
    assert NatToString(m) + [] == NatToString(m);
  }

  /** `parseFloat` reads an integer numeral as that integer. */
  lemma ParseFloatReadsInteger(n: int)
    ensures ParseFloat(IntToString(n)) == Some(n as real)
  {
    IntToStringParts(n, []);
    assert IntToString(n) + [] == IntToString(n);
    assert NatToString(if n < 0 then -n else n) + [] == NatToString(if n < 0 then -n else n);
    ParseUnsignedDecimalNumeral(if n < 0 then -n else n);
  }

  /** How `whole.fraction` splits into the pieces the decimal reader looks at. */
  lemma DecimalLayout(numeral: string, fraction: string)
    requires AllDigits(numeral, 10) && AllDigits(fraction, 10)
    ensures var s := numeral + "." + fraction;
      DigitRun(s, 10) == numeral && s[|numeral|..] == "." + fraction
      && DigitRun(fraction, 10) == fraction
  {
    var s := numeral + "." + fraction;
    assert s == numeral + ("." + fraction);
    DigitRunOfDigits(numeral, "." + fraction, 10);
    assert fraction + [] == fraction;
    DigitRunOfDigits(fraction, [], 10);
  }

  /** The unsigned part of `parseFloat` reads `whole.fraction`. */
  lemma ParseUnsignedDecimalFraction(numeral: string, fraction: string)
    requires AllDigits(numeral, 10) && AllDigits(fraction, 10) && |fraction| >= 1
    ensures ParseUnsignedDecimal(numeral + "." + fraction) == Some(Magnitude(numeral, fraction, 0))
  {
    var s := numeral + "." + fraction;
    DecimalLayout(numeral, fraction);
    var rest := s[|numeral|..];
    assert rest[1..] == fraction;
    assert rest[1 + |fraction|..] == [];
  }

  /** Without an exponent the magnitude is the whole part plus the scaled fraction. */
  lemma MagnitudeWithoutExponent(whole: string, fraction: string)
    requires AllDigits(whole, 10) && AllDigits(fraction, 10)
    ensures Magnitude(whole, fraction, 0) == DigitsValue(whole, 10) as real + FractionValue(fraction)
  {
    assert Pow10Int(0) == 1.0;
  }

  /**
   * `parseFloat` reads `whole.fraction` as whole plus the fraction's digits
   * over the matching power of ten, e.g. "12.05" as 12 + 5/100.
   */
  lemma ParseFloatReadsDecimal(whole: nat, fraction: string)
    requires |fraction| >= 1 && AllDigits(fraction, 10)
    ensures ParseFloat(NatToString(whole) + "." + fraction) == Some(whole as real + FractionValue(fraction))
  {
    var numeral := NatToString(whole);
    NatToStringDigits(whole);
    NatToStringDenotes(whole);
    var s := numeral + "." + fraction;
    assert s[0] == numeral[0];
    DigitLedParts(s);
    ParseUnsignedDecimalFraction(numeral, fraction);
    MagnitudeWithoutExponent(numeral, fraction);
  }

  /** Text without a decimal digit holds no unsigned decimal literal. */
  lemma ParseUnsignedDecimalWithoutDigits(u: string)
    requires forall i :: 0 <= i < |u| ==> !IsDigitIn(u[i], 10)
    ensures ParseUnsignedDecimal(u) == None
  {
    assert DigitRun(u, 10) == [];
    assert u[0..] == u;
    if |u| > 1 && u[0] == '.' {
      assert !IsDigitIn(u[1..][0], 10);
    }
  }

  /** `parseFloat(s) || 0` gives 0 for a string without any decimal digit. */
  lemma NumberOrZeroWithoutDigits(s: string)
    requires forall i :: 0 <= i < |s| ==> !IsDigitIn(s[i], 10)
    ensures NumberOrZero(s) == 0.0
  {
    var u := Unsigned(TrimStart(s));
    assert u == s[|s| - |u|..];
    ParseUnsignedDecimalWithoutDigits(u);
  }
}
