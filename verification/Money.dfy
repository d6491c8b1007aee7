/**
 Amounts on their way to PayPal and back (paypal_checkout/money.py): a decimal becomes a
 string with the currency's decimals only when nothing is lost, and the string reads back
 as the same amount.
 */
module Money {
  import opened Options
  import opened Digits
  import opened Decimals

  /** A Python value offered as an amount. */
  datatype Input = Boolean | Float | Number(d: Decimal) | Integer(i: int) | Text(s: string) | Other

  datatype Error = NotCurrency | NotAmount | NotFinite | Negative | TooLarge | LosesPrecision

  const ZERO_DECIMAL_CURRENCIES := {"HUF", "JPY", "TWD"}

  predicate IsSpace(c: char) {
    c == ' ' || '\t' <= c <= '\r' || '\U{1c}' <= c <= '\U{1f}'
  }

  function Strip(s: string): string {
    if s == "" then ""
    else if IsSpace(s[0]) then Strip(s[1..])
    else if IsSpace(s[|s| - 1]) then Strip(s[..|s| - 1])
    else s
  }

  function UpperCase(s: string): string {
    seq(|s|, i requires 0 <= i < |s| => if 'a' <= s[i] <= 'z' then s[i] - 'a' + 'A' else s[i])
  }

  /** _validate_currency: three letters, after stripping, in upper case. */
  function ValidateCurrency(currency: string): Result<string, Error> {
    var code := UpperCase(Strip(currency));
    if |code| == 3 && forall i :: 0 <= i < 3 ==> 'A' <= code[i] <= 'Z' then Ok(code) else Err(NotCurrency)
  }

  function ToDecimal(value: Input): Result<Decimal, Error> {
    match value
    case Boolean => Err(NotAmount)
    case Float => Err(NotAmount)
    case Other => Err(NotAmount)
    case Number(d) => if d.Finite? then Ok(d) else Err(NotFinite)
    case Integer(i) => Ok(Finite(i < 0, if i < 0 then -i else i, 0))
    case Text(s) =>
      match Parse(Strip(s))
      case None => Err(NotAmount)
      case Some(d) => if d.Finite? then Ok(d) else Err(NotFinite)
  }

  function PlacesOf(code: string): nat {
    if code in ZERO_DECIMAL_CURRENCIES then 0 else 2
  }

  function DecimalPlaces(currency: string): Result<nat, Error> {
    match ValidateCurrency(currency)
    case Err(e) => Err(e)
    case Ok(code) => Ok(PlacesOf(code))
  }

  function FormatAmount(value: Input, currency: string): Result<string, Error> {
    match ValidateCurrency(currency)
    case Err(e) => Err(e)
    case Ok(code) =>
      match ToDecimal(value)
      case Err(e) => Err(e)
      case Ok(amount) =>
        if BelowZero(amount) then Err(Negative)
        else if Quantize(amount, 0 - PlacesOf(code)).None? then Err(TooLarge)
        else
          var quantized := Quantize(amount, 0 - PlacesOf(code)).value;
          if !SameValue(quantized, amount) then Err(LosesPrecision) else Ok(Plain(quantized))
  }

  function ParseAmount(value: Input): Result<Decimal, Error> {
    ToDecimal(value)
  }

  datatype AmountPayload = AmountPayload(currencyCode: string, value: string)

  function ToPayload(value: Input, currency: string): Result<AmountPayload, Error> {
    match ValidateCurrency(currency)
    case Err(e) => Err(e)
    case Ok(code) =>
      match FormatAmount(value, code)
      case Err(e) => Err(e)
      case Ok(s) => Ok(AmountPayload(code, s))
  }

  function FromPayload(p: AmountPayload): Result<(Decimal, string), Error> {
    match ParseAmount(Text(p.value))
    case Err(e) => Err(e)
    case Ok(d) =>
      match ValidateCurrency(p.currencyCode)
      case Err(e) => Err(e)
      case Ok(code) => Ok((d, code))
  }

  // ---------- when formatting succeeds ----------

  /** Some number of minor units, of at most 28 digits, is this amount. */
  ghost predicate WholeMinorUnits(d: Decimal, places: nat)
    requires d.Finite?
  {
    var exponent := 0 - places;
    exists n: nat :: n < Pow10(PRECISION) && SameValue(d, Finite(d.negative, n, exponent))
  }

  /**
   A value is formatted exactly when the currency is valid and the value is a finite amount, not below zero, that
   is a whole number of minor units of at most 28 digits.  Nothing else is: no bool, no float, no unreadable text.
   */
  lemma FormatSucceedsIff(value: Input, currency: string)
    ensures FormatAmount(value, currency).Ok? <==>
      && ValidateCurrency(currency).Ok? && ToDecimal(value).Ok? && ToDecimal(value).value.Finite?
      && !BelowZero(ToDecimal(value).value)
      && WholeMinorUnits(ToDecimal(value).value, DecimalPlaces(currency).value)
  {
    hide Quantize, Plain, Strip, Parse, ValidateCurrency, SameValue, PlacesOf;
    if ValidateCurrency(currency).Ok? && ToDecimal(value).Ok? {
      QuantizeExactIff(ToDecimal(value).value, 0 - PlacesOf(ValidateCurrency(currency).value));
    }
  }

  // ---------- the round trip ----------

  lemma StripPlain(d: Decimal)
    requires d.Finite? && d.exponent <= 0
    ensures Strip(Plain(d)) == Plain(d)
  {
    hide Unsigned, ParseUnsigned, IsSpace;
    UnsignedParses(d.coefficient, -d.exponent, false);
    var text, s := Unsigned(d.coefficient, -d.exponent), Plain(d);
    assert s == (if d.negative then "-" else "") + text;
    assert s[|s| - 1] == text[|text| - 1];
    assert !IsSpace('-') && !IsSpace('.') && forall c :: IsDigit(c) ==> !IsSpace(c) by {
      PrintedIsNotSpace();
    }
  }

  lemma PrintedIsNotSpace()
    ensures !IsSpace('-') && !IsSpace('.') && forall c :: IsDigit(c) ==> !IsSpace(c)
  {}

  /** The string has exactly the currency's decimals, and no point when there are none. */
  predicate HasDecimals(s: string, places: nat) {
    if places == 0 then '.' !in s
    else |s| > places && s[|s| - places - 1] == '.' && IsDigits(s[|s| - places..])
  }

  lemma PlainDecimals(d: Decimal)
    requires d.Finite? && d.exponent <= 0
    ensures HasDecimals(Plain(d), -d.exponent)
  {
    hide PointAt;
    PointAtDenotes(d.coefficient, -d.exponent);
    var (whole, fraction) := PointAt(d.coefficient, -d.exponent);
    var s, sign := Plain(d), if d.negative then "-" else "";
    if d.exponent < 0 {
      assert s == sign + whole + "." + fraction;
      assert s[|s| - |fraction|..] == fraction;
    } else {
      assert s == sign + whole;
      assert forall i :: 0 <= i < |s| ==> s[i] == (sign + whole)[i];
    }
  }

  /**
   When an amount is formatted, the string has the currency's decimals, parsing it gives
   the same amount, and formatting either the parse or the string gives the same string.
   */
  lemma FormatRoundTrip(value: Input, currency: string)
    requires FormatAmount(value, currency).Ok?
    ensures var s := FormatAmount(value, currency).value;
      var parsed := ParseAmount(Text(s));
      && HasDecimals(s, DecimalPlaces(currency).value)
      && parsed.Ok? && parsed.value.Finite? && SameValue(parsed.value, ToDecimal(value).value)
      && FormatAmount(Number(parsed.value), currency) == Ok(s)
      && FormatAmount(Text(s), currency) == Ok(s)
  {
    hide Plain, Parse, Strip, HasDecimals;
    var quantized := Quantize(ToDecimal(value).value, 0 - PlacesOf(ValidateCurrency(currency).value)).value;
    PlainParses(quantized);
    StripPlain(quantized);
    PlainDecimals(quantized);
    QuantizeIdentity(quantized);
    NotBelowZero(ToDecimal(value).value, quantized);
  }

  lemma NotBelowZero(d: Decimal, quantized: Decimal)
    requires d.Finite? && quantized.Finite? && !BelowZero(d) && SameValue(quantized, d)
    requires quantized.negative == d.negative
    ensures !BelowZero(quantized) && SameValue(quantized, quantized)
  {
    if BelowZero(quantized) {
      var unit := Lower(quantized.exponent, d.exponent);
      assert quantized.coefficient * Pow10(quantized.exponent - unit) > 0;
    }
  }

  lemma {:induction false} UpperStripStable(code: string)
    requires |code| == 3 && forall i :: 0 <= i < 3 ==> 'A' <= code[i] <= 'Z'
    ensures ValidateCurrency(code) == Ok(code)
  {
    assert Strip(code) == code;
    assert UpperCase(code) == code;
  }

  /** The payload carries the formatted amount and the currency's code in upper case, or is refused with either. */
  lemma PayloadSays(value: Input, currency: string)
    ensures ToPayload(value, currency).Ok? <==> FormatAmount(value, currency).Ok?
    ensures ToPayload(value, currency).Ok? ==>
      && Ok(ToPayload(value, currency).value.currencyCode) == ValidateCurrency(currency)
      && Ok(ToPayload(value, currency).value.value) == FormatAmount(value, currency)
  {
    hide FormatAmount, ValidateCurrency;
    if ValidateCurrency(currency).Ok? {
      CodeFormatsAlike(value, currency);
    }
    NoFormatWithoutCurrency(value, currency);
  }

  lemma CodeFormatsAlike(value: Input, currency: string)
    requires ValidateCurrency(currency).Ok?
    ensures FormatAmount(value, ValidateCurrency(currency).value) == FormatAmount(value, currency)
  {
    UpperStripStable(ValidateCurrency(currency).value);
    hide ToDecimal, Quantize, Plain, ValidateCurrency, SameValue, PlacesOf;
  }

  lemma NoFormatWithoutCurrency(value: Input, currency: string)
    ensures FormatAmount(value, currency).Ok? ==> ValidateCurrency(currency).Ok?
  {
    hide ToDecimal, Quantize, Plain, ValidateCurrency, SameValue, PlacesOf;
  }

  /** Any payload is read as its amount and its currency's code in upper case, or refused if either cannot be read. */
  lemma PayloadReads(p: AmountPayload)
    ensures FromPayload(p).Ok? <==> ToDecimal(Text(p.value)).Ok? && ValidateCurrency(p.currencyCode).Ok?
    ensures FromPayload(p).Ok? ==>
      && Ok(FromPayload(p).value.0) == ToDecimal(Text(p.value))
      && Ok(FromPayload(p).value.1) == ValidateCurrency(p.currencyCode)
  {
    hide ToDecimal, ValidateCurrency;
  }

  /** The payload of an amount reads back as that amount in that currency. */
  lemma PayloadRoundTrip(value: Input, currency: string)
    requires ToPayload(value, currency).Ok?
    ensures var back := FromPayload(ToPayload(value, currency).value);
      && back.Ok? && back.value.0.Finite?
      && SameValue(back.value.0, ToDecimal(value).value)
      && Ok(back.value.1) == ValidateCurrency(currency)
  {
    var code := ValidateCurrency(currency).value;
    UpperStripStable(code);
    FormatRoundTrip(value, code);
  }

  /** One amount has one text: 10, 10.0 and 1E+1 are formatted alike, or refused alike. */
  lemma EqualAmountsFormatAlike(a: Decimal, b: Decimal, currency: string)
    requires a.Finite? && b.Finite? && a.negative == b.negative && SameValue(a, b)
    ensures FormatAmount(Number(a), currency).Ok? == FormatAmount(Number(b), currency).Ok?
    ensures FormatAmount(Number(a), currency).Ok? ==>
      FormatAmount(Number(a), currency) == FormatAmount(Number(b), currency)
  {
    SameValueSymmetric(a, b);
    SignsAgree(a, b);
    if FormatAmount(Number(a), currency).Ok? {
      FormatsLike(a, b, currency);
    }
    if FormatAmount(Number(b), currency).Ok? {
      FormatsLike(b, a, currency);
    }
  }

  lemma SignsAgree(a: Decimal, b: Decimal)
    requires a.Finite? && b.Finite? && a.negative == b.negative && SameValue(a, b)
    ensures BelowZero(a) == BelowZero(b)
  {
    NotBelowZeroIff(a, Lower(a.exponent, b.exponent));
    NotBelowZeroIff(b, Lower(a.exponent, b.exponent));
  }

  lemma NotBelowZeroIff(d: Decimal, unit: int)
    requires d.Finite? && unit <= d.exponent
    ensures BelowZero(d) <==> Scaled(d, unit) < 0
  {
    assert d.coefficient > 0 ==> d.coefficient * Pow10(d.exponent - unit) > 0;
  }

  lemma FormatsLike(a: Decimal, b: Decimal, currency: string)
    requires a.Finite? && b.Finite? && a.negative == b.negative && SameValue(a, b) && BelowZero(a) == BelowZero(b)
    requires FormatAmount(Number(a), currency).Ok?
    ensures FormatAmount(Number(b), currency) == FormatAmount(Number(a), currency)
  {
    var exponent := 0 - DecimalPlaces(currency).value;
    var quantized := Quantize(a, exponent).value;
    SameValueTransitive(quantized, a, b);
    SameValueSymmetric(quantized, b);
    RescaledExact(b, exponent, quantized.coefficient);
    assert quantized == Finite(b.negative, quantized.coefficient, exponent);
    hide SameValue, Rescaled, Plain;
  }

  // ---------- what each kind of value says ----------

  lemma PlainInteger(n: nat)
    ensures Plain(Finite(false, n, 0)) == Render(n)
  {
    assert Render(n)[..|Render(n)|] == Render(n);
  }

  lemma RenderReads(n: nat)
    ensures ToDecimal(Text(Render(n))) == Ok(Finite(false, n, 0))
  {
    hide Plain, Parse, Strip, Render;
    var d := Finite(false, n, 0);
    PlainInteger(n);
    PlainParses(d);
    StripPlain(d);
  }

  /** An int is the amount its decimal digits spell; a negative one is refused. */
  lemma IntegerFormatsAsDigits(n: nat, currency: string)
    ensures FormatAmount(Integer(n), currency) == FormatAmount(Text(Render(n)), currency)
    ensures n > 0 && ValidateCurrency(currency).Ok? ==> FormatAmount(Integer(0 - n), currency) == Err(Negative)
  {
    hide Render, Strip, Parse, ValidateCurrency, Quantize, Plain, SameValue;
    RenderReads(n);
  }

  /** n whole units, counted in the currency's smallest unit. */
  function WholeUnits(n: nat, places: nat): nat {
    if places == 0 then n else 100 * n
  }

  lemma IntegerQuantizes(n: nat, places: nat)
    requires places == 0 || places == 2
    ensures var d, units := Finite(false, n, 0), Finite(false, WholeUnits(n, places), 0 - places);
      && Quantize(d, 0 - places) == (if WholeUnits(n, places) < Pow10(PRECISION) then Some(units) else None)
      && SameValue(units, d)
  {
    assert Pow10(0) == 1;
    assert Pow10(2) == 10 * Pow10(1) && Pow10(1) == 10;
  }

  /** An int is formatted when it fits, and reads back as that many whole units. */
  lemma IntegerReadsBack(n: nat, currency: string)
    requires ValidateCurrency(currency).Ok?
    ensures var places := DecimalPlaces(currency).value;
      var text := FormatAmount(Integer(n), currency);
      && (text.Ok? <==> WholeUnits(n, places) < Pow10(PRECISION))
      && (text.Ok? ==> ParseAmount(Text(text.value)) == Ok(Finite(false, WholeUnits(n, places), 0 - places)))
  {
    hide Quantize, SameValue, Plain, Parse, Strip, ValidateCurrency, Pow10;
    var places := DecimalPlaces(currency).value;
    var units := Finite(false, WholeUnits(n, places), -(places as int));
    IntegerQuantizes(n, places);
    PlainParses(units);
    StripPlain(units);
  }

  function DigitChar(d: nat): char
    requires d < 10
  {
    '0' + d as char
  }

  lemma RenderSplits(n: nat)
    requires n >= 10
    ensures Render(n) == Render(n / 10) + [DigitChar(n % 10)]
  {}

  lemma RenderDigit(n: nat)
    requires n < 10
    ensures Render(n) == [DigitChar(n)]
  {}

  /** n hundredths are printed as the whole units, a point, and two digits. */
  lemma HundredthsText(n: nat)
    ensures Plain(Finite(false, n, -2)) ==
      Render(n / 100) + "." + [DigitChar(n / 10 % 10), DigitChar(n % 10)]
  {
    hide Render;
    var digits := Render(n);
    assert n / 10 / 10 == n / 100;
    if n < 10 {
      RenderDigit(n);
      RenderDigit(0);
      assert Zeros(1) == "0";
    } else {
      RenderSplits(n);
      if n < 100 {
        RenderDigit(n / 10);
        RenderDigit(0);
        assert Zeros(0) == "";
      } else {
        RenderSplits(n / 10);
        assert digits[..|digits| - 2] == Render(n / 100);
        assert digits[|digits| - 2..] == [DigitChar(n / 10 % 10), DigitChar(n % 10)];
      }
    }
  }

  lemma HundredsDigits(n: nat)
    ensures 100 * n / 100 == n && 100 * n / 10 % 10 == 0 && 100 * n % 10 == 0
  {}

  lemma HundredsText(n: nat)
    ensures Plain(Finite(false, 100 * n, -2)) == Render(n) + ".00"
  {
    hide Render, Plain;
    HundredsDigits(n);
    HundredthsText(100 * n);
    assert [DigitChar(0), DigitChar(0)] == "00";
    assert Render(n) + "." + "00" == Render(n) + ".00";
  }

  /** So the int 5 is sent as "5.00" in dollars and as "5" in yen. */
  lemma IntegerText(n: nat, currency: string)
    requires FormatAmount(Integer(n), currency).Ok?
    ensures FormatAmount(Integer(n), currency).value ==
      Render(n) + if DecimalPlaces(currency).value == 0 then "" else ".00"
  {
    hide Quantize, SameValue, ValidateCurrency, Pow10, Render, Plain;
    var places := DecimalPlaces(currency).value;
    IntegerQuantizes(n, places);
    PlainInteger(n);
    HundredsText(n);
    assert Render(n) + "" == Render(n);
  }

  /** What is no amount is refused as such, and what is not finite as that. */
  lemma StrangersRefused(value: Input, currency: string)
    requires ValidateCurrency(currency).Ok?
    ensures value.Boolean? || value.Float? || value.Other? ==> FormatAmount(value, currency) == Err(NotAmount)
    ensures value.Number? && !value.d.Finite? ==> FormatAmount(value, currency) == Err(NotFinite)
  {
    hide ValidateCurrency;
  }

  /** Two decimals, but none for the forint, the yen and the Taiwan dollar. */
  lemma DecimalsOf(currency: string)
    requires ValidateCurrency(currency).Ok?
    ensures var code := ValidateCurrency(currency).value;
      DecimalPlaces(currency) == Ok(if code == "HUF" || code == "JPY" || code == "TWD" then 0 else 2)
  {
    var code := ValidateCurrency(currency).value;
    hide ValidateCurrency;
    assert code in ZERO_DECIMAL_CURRENCIES <==> code == "HUF" || code == "JPY" || code == "TWD";
  }

  /** Spaces around are dropped. */
  lemma {:induction false} StripDropsAround(left: string, middle: string, right: string)
    requires forall i :: 0 <= i < |left| ==> IsSpace(left[i])
    requires forall i :: 0 <= i < |right| ==> IsSpace(right[i])
    requires middle != "" && !IsSpace(middle[0]) && !IsSpace(middle[|middle| - 1])
    ensures Strip(left + middle + right) == middle
    decreases |left| + |right|
  {
    var s := left + middle + right;
    if left != "" {
      assert s[1..] == left[1..] + middle + right;
      StripDropsAround(left[1..], middle, right);
    } else if right != "" {
      assert s == middle + right && s[0] == middle[0];
      assert s[..|s| - 1] == left + middle + right[..|right| - 1];
      StripDropsAround(left, middle, right[..|right| - 1]);
    } else {
      assert s == middle;
    }
  }

  predicate Letter(c: char) {
    'A' <= c <= 'Z' || 'a' <= c <= 'z'
  }

  /** Three letters in either case, spaces around them or not, name the currency in upper case. */
  lemma CurrencyRead(left: string, letters: string, right: string)
    requires forall i :: 0 <= i < |left| ==> IsSpace(left[i])
    requires forall i :: 0 <= i < |right| ==> IsSpace(right[i])
    requires |letters| == 3 && forall i :: 0 <= i < 3 ==> Letter(letters[i])
    ensures var code := ValidateCurrency(left + letters + right);
      && code.Ok? && |code.value| == 3
      && forall i :: 0 <= i < 3 ==>
           && ('A' <= letters[i] <= 'Z' ==> code.value[i] == letters[i])
           && ('a' <= letters[i] <= 'z' ==> code.value[i] == letters[i] - 'a' + 'A')
  {
    assert !IsSpace(letters[0]) && !IsSpace(letters[2]);
    hide IsSpace;
    StripDropsAround(left, letters, right);
  }

  /** And nothing but three letters does. */
  lemma CurrencyRefused(currency: string)
    requires |Strip(currency)| != 3 || exists i :: 0 <= i < 3 && !Letter(Strip(currency)[i])
    ensures ValidateCurrency(currency) == Err(NotCurrency)
  {
    var code := UpperCase(Strip(currency));
    if i :| |Strip(currency)| == 3 && 0 <= i < 3 && !Letter(Strip(currency)[i]) {
      assert !('A' <= code[i] <= 'Z');
    }
  }

  /** Text reads the same with spaces around it. */
  lemma TextReadStripped(left: string, middle: string, right: string)
    requires forall i :: 0 <= i < |left| ==> IsSpace(left[i])
    requires forall i :: 0 <= i < |right| ==> IsSpace(right[i])
    requires middle != "" && !IsSpace(middle[0]) && !IsSpace(middle[|middle| - 1])
    ensures ToDecimal(Text(left + middle + right)) == ToDecimal(Text(middle))
  {
    hide Parse, IsSpace;
    StripDropsAround(left, middle, right);
    StripDropsAround("", middle, "");
    assert "" + middle + "" == middle;
  }
}
