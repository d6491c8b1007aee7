/**
 Decimal numbers as Python's decimal module has them, following the General Decimal
 Arithmetic Specification: a sign, a coefficient and an exponent, compared by value,
 quantized half-even at precision 28, printed without an exponent, and parsed.
 */
module Decimals {
  import opened Options
  import opened Digits

  datatype Decimal = Finite(negative: bool, coefficient: nat, exponent: int) | Infinite(negative: bool) | NotANumber

  const PRECISION: nat := 28

  function Pow10(n: nat): (p: nat)
    ensures p > 0
  {
    if n == 0 then 1 else 10 * Pow10(n - 1)
  }

  // ---------- value ----------

  /** The value in units of ten to the given exponent. */
  function Scaled(d: Decimal, unit: int): int
    requires d.Finite? && unit <= d.exponent
  {
    if d.negative then -(d.coefficient * Pow10(d.exponent - unit)) else d.coefficient * Pow10(d.exponent - unit)
  }

  function Lower(a: int, b: int): int { if a <= b then a else b }

  /** Numeric equality: 10, 10.0 and 1E+1 are the same; so are 0 and -0. */
  predicate SameValue(a: Decimal, b: Decimal)
    requires a.Finite? && b.Finite?
  {
    var unit := Lower(a.exponent, b.exponent);
    Scaled(a, unit) == Scaled(b, unit)
  }

  predicate BelowZero(d: Decimal)
    requires d.Finite?
  {
    d.negative && d.coefficient > 0
  }

  // ---------- quantize ----------

  function RoundHalfEven(c: nat, divisor: nat): nat
    requires divisor > 0
  {
    var q, r := c / divisor, c % divisor;
    if 2 * r < divisor || (2 * r == divisor && q % 2 == 0) then q else q + 1
  }

  function Rescaled(d: Decimal, exponent: int): nat
    requires d.Finite?
  {
    if d.exponent >= exponent then d.coefficient * Pow10(d.exponent - exponent)
    else RoundHalfEven(d.coefficient, Pow10(exponent - d.exponent))
  }

  /** None stands for the InvalidOperation of a result with more than 28 digits. */
  function Quantize(d: Decimal, exponent: int): Option<Decimal>
    requires d.Finite?
  {
    var c := Rescaled(d, exponent);
    if c >= Pow10(PRECISION) then None else Some(Finite(d.negative, c, exponent))
  }

  // ---------- printing ----------

  /** The digits before and after the point, padded with zeros where the coefficient is short. */
  function PointAt(coefficient: nat, places: nat): (string, string) {
    var digits := Render(coefficient);
    if |digits| > places then (digits[..|digits| - places], digits[|digits| - places..])
    else ("0", Zeros(places - |digits|) + digits)
  }

  /** The ":f" format of a number with an exponent that is not positive. */
  function Plain(d: Decimal): string
    requires d.Finite? && d.exponent <= 0
  {
    (if d.negative then "-" else "") + Unsigned(d.coefficient, -d.exponent)
  }

  function Unsigned(coefficient: nat, places: nat): string {
    var (whole, fraction) := PointAt(coefficient, places);
    if places == 0 then whole else whole + "." + fraction
  }

  // ---------- parsing ----------

  /** Where a character first occurs, or the length of the string. */
  function IndexOf(s: string, c: char): (i: nat)
    ensures i <= |s| && c !in s[..i]
    ensures i < |s| ==> s[i] == c
  {
    if s == "" then 0
    else if s[0] == c then 0
    else
      var j := IndexOf(s[1..], c);
      assert s[..1 + j] == [s[0]] + s[1..][..j];
      1 + j
  }

  function WithoutUnderscores(s: string): string {
    if s == "" then ""
    else if s[0] == '_' then WithoutUnderscores(s[1..])
    else [s[0]] + WithoutUnderscores(s[1..])
  }

  function LowerCase(s: string): string {
    seq(|s|, i requires 0 <= i < |s| => if 'A' <= s[i] <= 'Z' then s[i] - 'A' + 'a' else s[i])
  }

  /** Digits, an optional point, more digits; at least one digit in all. */
  function ParseMantissa(s: string, negative: bool, exponent: int): Option<Decimal> {
    var point := IndexOf(s, '.');
    var whole := s[..point];
    var fraction := if point < |s| then s[point + 1..] else "";
    if IsDigits(whole) && IsDigits(fraction) && |whole| + |fraction| > 0 then
      assert IsDigits(whole + fraction);
      Some(Finite(negative, ValueOf(whole + fraction), exponent - |fraction|))
    else None
  }

  function ParseExponent(s: string): Option<int> {
    if s != "" && s[0] == '-' then
      if |s| > 1 && IsDigits(s[1..]) then Some(-(ValueOf(s[1..]) as int)) else None
    else
      var digits := if s != "" && s[0] == '+' then s[1..] else s;
      if |digits| > 0 && IsDigits(digits) then Some(ValueOf(digits)) else None
  }

  function ParseUnsigned(s: string, negative: bool): Option<Decimal> {
    var lower := LowerCase(s);
    if lower == "inf" || lower == "infinity" then Some(Infinite(negative))
    else if |s| >= 3 && lower[..3] == "nan" && IsDigits(s[3..]) then Some(NotANumber)
    else if |s| >= 4 && lower[..4] == "snan" && IsDigits(s[4..]) then Some(NotANumber)
    else
      var e := IndexOf(lower, 'e');
      if e == |s| then ParseMantissa(s, negative, 0)
      else
        var exponent := ParseExponent(s[e + 1..]);
        if exponent.None? then None else ParseMantissa(s[..e], negative, exponent.value)
  }

  /** Decimal(text), after stripping; None stands for the exception on text that is not a number. */
  function Parse(text: string): Option<Decimal> {
    var s := WithoutUnderscores(text);
    if s != "" && s[0] == '-' then ParseUnsigned(s[1..], true)
    else if s != "" && s[0] == '+' then ParseUnsigned(s[1..], false)
    else ParseUnsigned(s, false)
  }

  // ---------- quantize keeps a value exactly when it is whole ----------

  lemma {:induction false} Pow10Adds(m: nat, n: nat)
    ensures Pow10(m + n) == Pow10(m) * Pow10(n)
  {
    if m > 0 {
      Pow10Adds(m - 1, n);
      assert Pow10(m + n) == 10 * Pow10(m + n - 1);
    }
  }

  /** Comparing at any common unit is comparing by value. */
  lemma ScaledShifts(d: Decimal, high: int, low: int)
    requires d.Finite? && low <= high <= d.exponent
    ensures Scaled(d, low) == Scaled(d, high) * Pow10(high - low)
  {
    Pow10Adds(d.exponent - high, high - low);
    assert Pow10(d.exponent - low) == Pow10(d.exponent - high) * Pow10(high - low);
    MulAssociates(d.coefficient, Pow10(d.exponent - high), Pow10(high - low));
  }

  /** Numeric equality is an equivalence, whatever the exponents. */
  lemma SameValueSymmetric(a: Decimal, b: Decimal)
    requires a.Finite? && b.Finite?
    ensures SameValue(a, b) <==> SameValue(b, a)
  {}

  /** At any common unit, equal values are equal. */
  lemma SameValueAt(a: Decimal, b: Decimal, unit: int)
    requires a.Finite? && b.Finite? && unit <= Lower(a.exponent, b.exponent)
    ensures SameValue(a, b) <==> Scaled(a, unit) == Scaled(b, unit)
  {
    var high := Lower(a.exponent, b.exponent);
    ScaledShifts(a, high, unit);
    ScaledShifts(b, high, unit);
    MulCancels(Scaled(a, high), Scaled(b, high), Pow10(high - unit));
  }

  lemma MulCancels(x: int, y: int, z: int)
    requires z > 0
    ensures x * z == y * z <==> x == y
  {
    if x < y {
      assert (y - x) * z > 0;
    } else if y < x {
      assert (x - y) * z > 0;
    }
  }

  lemma SameValueTransitive(a: Decimal, b: Decimal, c: Decimal)
    requires a.Finite? && b.Finite? && c.Finite? && SameValue(a, b) && SameValue(b, c)
    ensures SameValue(a, c)
  {
    var unit := Lower(Lower(a.exponent, b.exponent), c.exponent);
    SameValueAt(a, b, unit);
    SameValueAt(b, c, unit);
    SameValueAt(a, c, unit);
  }

  lemma MulAssociates(x: int, y: int, z: int)
    ensures x * (y * z) == (x * y) * z && -((x * y) * z) == (-(x * y)) * z
  {
  }

  lemma ExactDivision(c: nat, p: nat, n: nat)
    requires p > 0 && c == n * p
    ensures c / p == n && c % p == 0
  {
    assert c == n * p + 0;
    DivisionUnique(c, p, n, 0);
  }

  lemma DivisionUnique(c: nat, p: nat, q: nat, r: nat)
    requires p > 0 && c == q * p + r && r < p
    ensures c / p == q && c % p == r
  {
    var q', r' := c / p, c % p;
    assert c == q' * p + r' && r' < p;
    if q < q' {
      MulGrows(q, q', p);
      assert false;
    } else if q' < q {
      MulGrows(q', q, p);
      assert false;
    }
  }

  lemma {:induction false} MulGrows(low: nat, high: nat, p: nat)
    requires low < high
    ensures low * p + p <= high * p
    decreases high
  {
    assert high * p == (high - 1) * p + p;
    if low < high - 1 {
      MulGrows(low, high - 1, p);
    }
  }

  /** The quantized number has the same value exactly when the value is a whole multiple of the unit. */
  lemma RescaledExact(d: Decimal, exponent: int, n: nat)
    requires d.Finite?
    ensures SameValue(d, Finite(d.negative, n, exponent)) ==> n == Rescaled(d, exponent)
  {
    if SameValue(d, Finite(d.negative, n, exponent)) {
      if d.exponent < exponent {
        var p := Pow10(exponent - d.exponent);
        assert Pow10(0) == 1;
        assert d.coefficient == n * p;
        ExactDivision(d.coefficient, p, n);
      } else {
        assert Pow10(0) == 1;
      }
    }
  }

  /** Quantizing succeeds without changing the value exactly when some coefficient of at most 28 digits expresses it. */
  lemma QuantizeExactIff(d: Decimal, exponent: int)
    requires d.Finite?
    ensures (Quantize(d, exponent).Some? && SameValue(Quantize(d, exponent).value, d))
      <==> exists n: nat :: n < Pow10(PRECISION) && SameValue(d, Finite(d.negative, n, exponent))
  {
    var c := Rescaled(d, exponent);
    if Quantize(d, exponent).Some? && SameValue(Quantize(d, exponent).value, d) {
      assert c < Pow10(PRECISION) && SameValue(d, Finite(d.negative, c, exponent));
    }
    if n: nat :| n < Pow10(PRECISION) && SameValue(d, Finite(d.negative, n, exponent)) {
      RescaledExact(d, exponent, n);
      assert SameValue(Finite(d.negative, n, exponent), d);
    }
  }

  /** A number already at the exponent, with at most 28 digits, is its own quantization. */
  lemma QuantizeIdentity(d: Decimal)
    requires d.Finite? && d.coefficient < Pow10(PRECISION)
    ensures Quantize(d, d.exponent) == Some(d)
  {
    assert Pow10(0) == 1;
  }

  // ---------- parsing what was printed ----------

  lemma {:induction false} NoUnderscores(s: string)
    requires '_' !in s
    ensures WithoutUnderscores(s) == s
  {
    if s != "" {
      assert s == [s[0]] + s[1..];
      NoUnderscores(s[1..]);
    }
  }

  lemma {:induction false} IndexAfter(before: string, c: char, after: string)
    requires c !in before
    ensures IndexOf(before + [c] + after, c) == |before|
  {
    var s := before + [c] + after;
    if before != "" {
      assert s[0] == before[0] && before[0] in before;
      assert s[1..] == before[1..] + [c] + after;
      IndexAfter(before[1..], c, after);
    }
  }

  lemma {:induction false} IndexAbsent(s: string, c: char)
    requires c !in s
    ensures IndexOf(s, c) == |s|
  {
    if s != "" {
      assert s[0] in s;
      IndexAbsent(s[1..], c);
    }
  }

  predicate PlainText(s: string) {
    s != "" && IsDigit(s[0]) && forall i :: 0 <= i < |s| ==> IsDigit(s[i]) || s[i] == '.'
  }

  lemma PlainTextParses(s: string, negative: bool)
    requires PlainText(s)
    ensures ParseUnsigned(s, negative) == ParseMantissa(s, negative, 0)
  {
    assert LowerCase(s) == s;
    StartsWithDigit(s);
    IndexAbsent(s, 'e');
  }

  lemma SplitsAtPoint(whole: string, fraction: string)
    requires IsDigits(whole)
    ensures var s := whole + "." + fraction;
      && IndexOf(s, '.') == |whole| < |s| && s[..|whole|] == whole && s[|whole| + 1..] == fraction
  {
    var s := whole + "." + fraction;
    assert '.' !in whole;
    hide IsDigits;
    assert s == whole + ['.'] + fraction;
    IndexAfter(whole, '.', fraction);
  }

  lemma MantissaParses(whole: string, fraction: string, negative: bool)
    requires IsDigits(whole) && IsDigits(fraction) && |whole| > 0
    ensures IsDigits(whole + fraction)
    ensures ParseMantissa(whole + "." + fraction, negative, 0)
         == Some(Finite(negative, ValueOf(whole + fraction), -|fraction|))
    ensures ParseMantissa(whole, negative, 0) == Some(Finite(negative, ValueOf(whole), 0))
  {
    assert IsDigits(whole + fraction);
    hide ValueOf, IndexOf, IsDigits, ParseMantissa;
    WholeParses(whole, negative);
    SplitsAtPoint(whole, fraction);
    ParsesAtPoint(whole + "." + fraction, whole, fraction, negative);
  }

  lemma ParsesAtPoint(s: string, whole: string, fraction: string, negative: bool)
    requires IndexOf(s, '.') == |whole| < |s| && s[..|whole|] == whole && s[|whole| + 1..] == fraction
    requires IsDigits(whole) && IsDigits(fraction) && |whole| > 0 && IsDigits(whole + fraction)
    ensures ParseMantissa(s, negative, 0) == Some(Finite(negative, ValueOf(whole + fraction), -|fraction|))
  {
    hide ValueOf, IndexOf, IsDigits;
  }

  lemma WholeParses(whole: string, negative: bool)
    requires IsDigits(whole) && |whole| > 0
    ensures ParseMantissa(whole, negative, 0) == Some(Finite(negative, ValueOf(whole), 0))
  {
    assert IsDigits("") && '.' !in whole;
    hide ValueOf, IndexOf, IsDigits;
    IndexAbsent(whole, '.');
    assert whole[..|whole|] == whole && whole + "" == whole;
  }

  /** Both parts are digits, the fraction as long as asked, and together they denote the coefficient. */
  lemma PointAtDenotes(c: nat, places: nat)
    ensures var (whole, fraction) := PointAt(c, places);
      && IsDigits(whole) && IsDigits(fraction) && |whole| > 0 && |fraction| == places
      && IsDigits(whole + fraction) && ValueOf(whole + fraction) == c
  {
    hide Render, ValueOf;
    var digits := Render(c);
    var (whole, fraction) := PointAt(c, places);
    RenderDenotes(c);
    if |digits| > places {
      assert whole + fraction == digits;
    } else {
      assert whole + fraction == Zeros(1 + places - |digits|) + digits;
      LeadingZeros(1 + places - |digits|, digits);
    }
  }

  lemma UnsignedParses(c: nat, places: nat, negative: bool)
    ensures PlainText(Unsigned(c, places))
    ensures ParseUnsigned(Unsigned(c, places), negative) == Some(Finite(negative, c, 0 - places))
  {
    hide PointAt, ValueOf, ParseMantissa, ParseUnsigned;
    PointAtDenotes(c, places);
    var (whole, fraction) := PointAt(c, places);
    PlainTextParses(Unsigned(c, places), negative);
    MantissaParses(whole, fraction, negative);
    assert places == 0 ==> whole + fraction == whole;
  }

  /** The printed form reads back as the very same decimal, sign and exponent included. */
  lemma PlainParses(d: Decimal)
    requires d.Finite? && d.exponent <= 0
    ensures Parse(Plain(d)) == Some(d)
  {
    hide Unsigned, ParseUnsigned, WithoutUnderscores;
    var text := Unsigned(d.coefficient, -d.exponent);
    UnsignedParses(d.coefficient, -d.exponent, d.negative);
    NoUnderscores(Plain(d));
    if d.negative {
      assert Plain(d)[1..] == text;
    } else {
      assert Plain(d) == text;
    }
  }

  // ---------- other spellings ----------

  /** Rounding goes to the nearest multiple, and to the even one of two. */
  lemma RoundsToNearestEven(c: nat, divisor: nat)
    requires divisor > 0
    ensures var q := RoundHalfEven(c, divisor);
      && 2 * (q * divisor - c) <= divisor && 2 * (c - q * divisor) <= divisor
      && (2 * (q * divisor - c) == divisor || 2 * (c - q * divisor) == divisor ==> q % 2 == 0)
  {
    var q, r := c / divisor, c % divisor;
    assert c == q * divisor + r;
    assert (q + 1) * divisor == q * divisor + divisor;
  }

  lemma LowerDigits(s: string)
    requires IsDigits(s)
    ensures LowerCase(s) == s && 'e' !in s && '_' !in s && '.' !in s
  {}

  lemma ExponentUnsigned(s: string)
    requires IsDigits(s) && |s| > 0
    ensures ParseExponent(s) == Some(ValueOf(s))
  {
    assert IsDigit(s[0]);
    hide ValueOf, IsDigits;
  }

  lemma ExponentSigned(s: string, digits: string)
    requires |s| > 1 && s[1..] == digits && IsDigits(digits)
    ensures s[0] == '+' ==> ParseExponent(s) == Some(ValueOf(digits))
    ensures s[0] == '-' ==> ParseExponent(s) == Some(-(ValueOf(digits) as int))
  {
    hide ValueOf, IsDigits;
  }

  lemma ExponentReads(digits: string)
    requires IsDigits(digits) && |digits| > 0
    ensures ParseExponent(digits) == Some(ValueOf(digits))
    ensures ParseExponent("+" + digits) == Some(ValueOf(digits))
    ensures ParseExponent("-" + digits) == Some(-(ValueOf(digits) as int))
  {
    hide ValueOf, IsDigits, ParseExponent;
    ExponentUnsigned(digits);
    ExponentSigned("+" + digits, digits);
    ExponentSigned("-" + digits, digits);
  }

  /** Text of digits, an e in either case, and no other letter is read as its mantissa and its exponent. */
  lemma SplitsAtE(whole: string, e: char, rest: string)
    requires IsDigits(whole) && |whole| > 0 && LowerCase(rest) == rest && (e == 'e' || e == 'E')
    requires ParseExponent(rest).Some?
    ensures ParseUnsigned(whole + [e] + rest, false) == ParseMantissa(whole, false, ParseExponent(rest).value)
  {
    var s := whole + [e] + rest;
    LowerDigits(whole);
    LowerParts(whole, e, rest);
    assert IsDigit(whole[0]) && s[0] == whole[0];
    hide ParseExponent, LowerCase, IsDigits, ParseMantissa, ParseUnsigned;
    IndexAfter(whole, 'e', rest);
    assert s[..|whole|] == whole && s[|whole| + 1..] == rest;
    ParsesAtE(s, whole + ['e'] + rest, |whole|);
  }

  lemma StartsWithDigit(lower: string)
    requires lower != "" && IsDigit(lower[0])
    ensures lower != "inf" && lower != "infinity"
    ensures |lower| >= 3 ==> lower[..3] != "nan"
    ensures |lower| >= 4 ==> lower[..4] != "snan"
  {
    assert "inf"[0] == 'i' && "infinity"[0] == 'i' && "nan"[0] == 'n' && "snan"[0] == 's';
    if |lower| >= 3 {
      assert lower[..3][0] == lower[0];
    }
    if |lower| >= 4 {
      assert lower[..4][0] == lower[0];
    }
  }

  lemma ParsesAtE(s: string, lower: string, e: nat)
    requires LowerCase(s) == lower && e == IndexOf(lower, 'e') < |s| && s != ""
    requires IsDigit(lower[0]) && ParseExponent(s[e + 1..]).Some?
    ensures ParseUnsigned(s, false) == ParseMantissa(s[..e], false, ParseExponent(s[e + 1..]).value)
  {
    assert |lower| == |s|;
    hide ParseExponent, LowerCase, IsDigits, ParseMantissa, IndexOf, IsDigit;
    StartsWithDigit(lower);
  }

  lemma LowerParts(whole: string, e: char, rest: string)
    requires LowerCase(whole) == whole && LowerCase(rest) == rest && (e == 'e' || e == 'E')
    ensures LowerCase(whole + [e] + rest) == whole + ['e'] + rest
  {
    var s, lower := whole + [e] + rest, whole + ['e'] + rest;
    forall i | 0 <= i < |s| ensures LowerCase(s)[i] == lower[i] {
      if i < |whole| {
        assert LowerCase(whole)[i] == whole[i];
      } else if i > |whole| {
        assert LowerCase(rest)[i - |whole| - 1] == rest[i - |whole| - 1];
      }
    }
  }

  lemma LowerSigned(sign: string, digits: string)
    requires (sign == "" || sign == "+" || sign == "-") && IsDigits(digits)
    ensures LowerCase(sign + digits) == sign + digits
  {}

  /** Exponent notation: the digits of n, e or E, a sign or none, the digits of k. */
  lemma ScientificParses(n: nat, e: char, sign: string, k: nat)
    requires (sign == "" || sign == "+" || sign == "-") && (e == 'e' || e == 'E')
    ensures ParseUnsigned(Render(n) + [e] + (sign + Render(k)), false)
         == Some(Finite(false, n, if sign == "-" then 0 - k else k))
  {
    hide Render, ValueOf, ParseExponent, LowerCase, ParseMantissa, ParseUnsigned;
    RenderDenotes(n);
    RenderDenotes(k);
    ExponentReads(Render(k));
    assert "" + Render(k) == Render(k);
    LowerSigned(sign, Render(k));
    SplitsAtE(Render(n), e, sign + Render(k));
    WholeAtExponent(Render(n), if sign == "-" then 0 - k else k);
  }

  /** A plus sign in front says nothing. */
  lemma PlusParses(d: Decimal)
    requires d.Finite? && !d.negative && d.exponent <= 0
    ensures Parse("+" + Plain(d)) == Some(d)
  {
    hide Unsigned, ParseUnsigned, WithoutUnderscores;
    var text := Unsigned(d.coefficient, -d.exponent);
    UnsignedParses(d.coefficient, -d.exponent, false);
    assert Plain(d) == text && '_' !in "+" + text;
    NoUnderscores("+" + text);
    assert ("+" + text)[1..] == text;
  }

  lemma {:induction false} UnderscoreDropped(a: string, b: string)
    ensures WithoutUnderscores(a + "_" + b) == WithoutUnderscores(a + b)
  {
    if a == "" {
      assert a + "_" + b == "_" + b && ("_" + b)[1..] == b && a + b == b;
    } else {
      assert (a + "_" + b)[1..] == a[1..] + "_" + b && (a + b)[1..] == a[1..] + b;
      UnderscoreDropped(a[1..], b);
    }
  }

  /** Nor does an underscore anywhere. */
  lemma UnderscoreIgnored(a: string, b: string)
    ensures Parse(a + "_" + b) == Parse(a + b)
  {
    hide WithoutUnderscores, ParseUnsigned;
    UnderscoreDropped(a, b);
  }

  lemma WholeAtExponent(whole: string, exponent: int)
    requires IsDigits(whole) && |whole| > 0
    ensures ParseMantissa(whole, false, exponent) == Some(Finite(false, ValueOf(whole), exponent))
  {
    assert IsDigits("") && '.' !in whole;
    hide ValueOf, IndexOf, IsDigits;
    IndexAbsent(whole, '.');
    assert whole[..|whole|] == whole && whole + "" == whole;
  }
}
