/**
 What a stored refund body says on the wire (_refund_body in paypal_checkout/payments.py): the amount
 becomes text, and what PayPal reads from that text is the amount the refund row records.
 */
module RefundBodies {
  import opened Options
  import opened Decimals
  import opened Money
  import RefundRows

  /** The JSON object posted; an absent amount refunds the whole capture. */
  datatype Wire = Wire(amount: Option<AmountPayload>, note: string, invoice: string)

  /** An amount of n minor units, as the Decimal a caller passes and a row stores. */
  function MinorUnits(n: nat, places: nat): Decimal {
    Finite(false, n, 0 - places)
  }

  /** _refund_body; formatting the amount may raise. */
  function Encode(body: RefundRows.Body, currency: string): Result<Wire, Money.Error> {
    if body.amount.None? then Ok(Wire(None, body.note, body.invoice))
    else
      match DecimalPlaces(currency)
      case Err(e) => Err(e)
      case Ok(places) =>
        match ToPayload(Number(MinorUnits(body.amount.value, places)), currency)
        case Err(e) => Err(e)
        case Ok(p) => Ok(Wire(Some(p), body.note, body.invoice))
  }

  /** The text read as a number of the currency's minor units. */
  function ReadMinorUnits(p: AmountPayload): Option<nat> {
    match FromPayload(p)
    case Err(_) => None
    case Ok((d, code)) =>
      if d.Finite? && !d.negative && d.exponent == 0 - PlacesOf(code) then Some(d.coefficient) else None
  }

  /** What PayPal is asked to refund of a capture. */
  function AskedOnWire(w: Wire, captured: nat): Option<nat> {
    if w.amount.Some? then ReadMinorUnits(w.amount.value) else Some(captured)
  }

  lemma FormatMinorUnits(n: nat, code: string)
    requires ValidateCurrency(code) == Ok(code)
    ensures var d := MinorUnits(n, PlacesOf(code));
      FormatAmount(Number(d), code) == if n < Pow10(PRECISION) then Ok(Plain(d)) else Err(TooLarge)
  {
    hide Plain, ValidateCurrency;
    var d := MinorUnits(n, PlacesOf(code));
    assert Pow10(0) == 1;
    assert Rescaled(d, d.exponent) == n;
    assert SameValue(d, d);
    hide Pow10, Rescaled, SameValue;
  }

  lemma ReadPlain(n: nat, code: string)
    requires ValidateCurrency(code) == Ok(code)
    ensures ReadMinorUnits(AmountPayload(code, Plain(MinorUnits(n, PlacesOf(code))))) == Some(n)
  {
    hide Plain, Parse, Strip, ValidateCurrency;
    var d := MinorUnits(n, PlacesOf(code));
    PlainParses(d);
    StripPlain(d);
  }

  /** n minor units can be formatted exactly when n has at most 28 digits; then the text reads back as n minor units. */
  lemma MinorUnitsOnWire(n: nat, currency: string)
    requires ValidateCurrency(currency).Ok?
    ensures var payload := ToPayload(Number(MinorUnits(n, DecimalPlaces(currency).value)), currency);
      && (payload.Ok? <==> n < Pow10(PRECISION))
      && (payload.Ok? ==>
        ReadMinorUnits(payload.value) == Some(n) && Ok(payload.value.currencyCode) == ValidateCurrency(currency))
  {
    var code := ValidateCurrency(currency).value;
    UpperStripStable(code);
    FormatMinorUnits(n, code);
    ReadPlain(n, code);
    hide ValidateCurrency, FormatAmount, ReadMinorUnits, Plain, Pow10, PlacesOf;
  }

  /**
   For every refund the library starts: its stored body can be sent, and what PayPal reads from it is the
   amount of the row.
   */
  lemma RefundBodyAsksForRowAmount(db: RefundRows.Db, capture: nat, amount: Option<nat>, note: string, invoice: string,
                                   currency: string)
    requires ValidateCurrency(currency).Ok?
    requires RefundRows.RefundCapture(db, capture, amount, note, invoice).Done?
    ensures var started := RefundRows.RefundCapture(db, capture, amount, note, invoice);
      started.value in started.db.rows && started.db.rows[started.value].body.Some? &&
      var row := started.db.rows[started.value];
      var wire := Encode(row.body.value, currency);
      && capture in db.captures && wire.Ok?
      && AskedOnWire(wire.value, db.captures[capture].amount) == Some(row.amount)
      && wire.value.note == row.note && wire.value.invoice == row.invoice
  {
    if amount.Some? {
      MinorUnitsOnWire(amount.value, currency);
    }
    hide ToPayload, ReadMinorUnits, ValidateCurrency;
  }

  /** And an amount that cannot be sent starts no refund. */
  lemma UnsendableAmountRefused(db: RefundRows.Db, capture: nat, amount: nat,
    note: string, invoice: string, currency: string)
    requires ValidateCurrency(currency).Ok?
    requires capture in db.captures && db.captures[capture].paypalId.Some?
    ensures Encode(RefundRows.Body(Some(amount), note, invoice), currency).Err? <==>
      RefundRows.RefundCapture(db, capture, Some(amount), note, invoice) ==
        RefundRows.Raised(RefundRows.AmountUnsendable)
  {
    MinorUnitsOnWire(amount, currency);
    hide ToPayload, ValidateCurrency;
  }
}
