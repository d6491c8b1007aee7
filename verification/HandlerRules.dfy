/**
 What the rows show after each webhook event, told by the PayPal ids the event names: which row changes and how,
 which events PayPal is asked to send again, and that strangers are ignored.
 */
module HandlerRules {
  import opened Options
  import opened Handlers
  import RefundRows
  import RefundPasses
  import Sales

  // ---------- rows by id ----------

  /** The one row below the bound that has this id. */
  ghost predicate Has<T>(rows: map<nat, T>, idOf: T -> Option<string>, id: string, bound: nat, pk: nat) {
    && pk in rows && pk < bound && idOf(rows[pk]) == Some(id)
    && forall q :: q in rows && idOf(rows[q]) == Some(id) ==> q == pk
  }

  ghost predicate HasNone<T>(rows: map<nat, T>, idOf: T -> Option<string>, id: string, bound: nat) {
    forall q :: q in rows && q < bound ==> idOf(rows[q]) != Some(id)
  }

  function RecordId(): Record -> Option<string> { (r: Record) => r.paypalId }

  function TokenId(): Token -> Option<string> { (r: Token) => r.paypalId }

  function CaptureId(): RefundRows.Capture -> Option<string> { (r: RefundRows.Capture) => r.paypalId }

  lemma FindsRecord(t: Table<Record>, id: string, pk: nat)
    ensures Has(t.rows, RecordId(), id, t.next, pk) ==> FindRecord(t, id) == Some(pk)
    ensures HasNone(t.rows, RecordId(), id, t.next) <==> FindRecord(t, id).None?
  {}

  lemma FindsToken(t: Table<Token>, id: string, pk: nat)
    ensures Has(t.rows, TokenId(), id, t.next, pk) ==> FindToken(t, id) == Some(pk)
    ensures HasNone(t.rows, TokenId(), id, t.next) <==> FindToken(t, id).None?
  {}

  lemma FindsCapture(s: Library, id: string, pk: nat)
    ensures Has(s.refunds.captures, CaptureId(), id, s.nextCapture, pk) ==> FindCapture(s, id) == Some(pk)
    ensures HasNone(s.refunds.captures, CaptureId(), id, s.nextCapture) <==> FindCapture(s, id).None?
  {}

  // ---------- captures and refunds ----------

  /** A capture event leaves the event's status and finality on the capture it names, and touches nothing else. */
  lemma CaptureEventShows(s: Library, doc: Doc, final: Option<bool>, order: Option<string>, pk: nat)
    requires doc.id.Some? && Has(s.refunds.captures, CaptureId(), doc.id.value, s.nextCapture, pk)
    ensures var before := s.refunds.captures[pk];
      var after := RefundRows.Capture(before.order, doc.id, before.amount,
                                      if doc.status.Some? then doc.status.value else before.status,
                                      if final.Some? then final.value else before.final);
      Dispatch(s, CaptureEvent(doc, final, order)) ==
        Handled(s.(refunds := s.refunds.(captures := s.refunds.captures[pk := after])))
  {
    FindsCapture(s, doc.id.value, pk);
    hide FindCapture, Has;
  }

  /** A refund event adopts the refund on the capture it names, and then syncs that capture's status. */
  lemma RefundEventShows(s: Library, refund: RefundRows.Payload, capture: string, order: Option<string>, pk: nat)
    requires Valid(s) && Has(s.refunds.captures, CaptureId(), capture, s.nextCapture, pk)
    ensures var adopted := RefundRows.AdoptRemoteRefund(s.refunds, pk, refund);
      && adopted.Done?
      && Dispatch(s, RefundEvent(refund, Some(capture), order)) ==
           Handled(s.(refunds := RefundRows.SyncStatus(adopted.db, pk)))
  {
    FindsCapture(s, capture, pk);
    if refund.id.Some? {
      RefundPasses.AdoptSucceeds(s.refunds, pk, refund);
    }
    hide FindCapture, Has, RefundRows.AdoptRemoteRefund, RefundRows.SyncStatus, Valid;
    assert refund.id.None? ==> RefundRows.AdoptRemoteRefund(s.refunds, pk, refund).Done? by {
      NothingToAdopt(s.refunds, pk, refund);
    }
  }

  lemma NothingToAdopt(db: RefundRows.Db, pk: nat, refund: RefundRows.Payload)
    ensures refund.id.None? ==> RefundRows.AdoptRemoteRefund(db, pk, refund).Done?
  {}

  // ---------- orders, authorizations, subscriptions ----------

  /** The row after an event: the event's id and columns, and the status it implies, or else reports. */
  function Told(r: Record, doc: Doc, implied: Option<string>): Record {
    Record(doc.id, if implied.Some? then implied.value else if doc.status.Some? then doc.status.value else r.status,
           r.details + doc.details)
  }

  function Put(t: Table<Record>, pk: nat, row: Record): Table<Record> {
    Table(t.rows[pk := row], t.next)
  }

  lemma RecordShows(t: Table<Record>, doc: Doc, implied: Option<string>, pk: nat)
    requires doc.id.Some? && Has(t.rows, RecordId(), doc.id.value, t.next, pk)
    ensures UpdateRecord(t, doc, implied) == Put(t, pk, Told(t.rows[pk], doc, implied))
  {
    FindsRecord(t, doc.id.value, pk);
    hide FindRecord, Has;
  }

  lemma RecordUnknown(t: Table<Record>, doc: Doc, implied: Option<string>)
    requires doc.id.Some? ==> HasNone(t.rows, RecordId(), doc.id.value, t.next)
    ensures UpdateRecord(t, doc, implied) == t
  {
    if doc.id.Some? {
      FindsRecord(t, doc.id.value, 0);
    }
    hide FindRecord, HasNone;
  }

  lemma OrderEventShows(s: Library, doc: Doc, pk: nat)
    requires doc.id.Some? && Has(s.orders.rows, RecordId(), doc.id.value, s.orders.next, pk)
    ensures Dispatch(s, OrderEvent(doc)) ==
      Handled(s.(orders := Put(s.orders, pk, Told(s.orders.rows[pk], doc, None))))
  {
    RecordShows(s.orders, doc, None, pk);
  }

  lemma AuthorizationEventShows(s: Library, doc: Doc, pk: nat)
    requires doc.id.Some? && Has(s.authorizations.rows, RecordId(), doc.id.value, s.authorizations.next, pk)
    ensures Dispatch(s, AuthorizationEvent(doc)) ==
      Handled(s.(authorizations := Put(s.authorizations, pk, Told(s.authorizations.rows[pk], doc, None))))
  {
    RecordShows(s.authorizations, doc, None, pk);
  }

  /** Of a subscription the event's name counts for more than the status in the payload. */
  lemma SubscriptionEventShows(s: Library, doc: Doc, implied: Option<string>, pk: nat)
    requires doc.id.Some? && Has(s.subscriptions.rows, RecordId(), doc.id.value, s.subscriptions.next, pk)
    ensures Dispatch(s, SubscriptionEvent(doc, implied)) ==
      Handled(s.(subscriptions := Put(s.subscriptions, pk, Told(s.subscriptions.rows[pk], doc, implied))))
  {
    RecordShows(s.subscriptions, doc, implied, pk);
  }

  // ---------- sales ----------

  ghost predicate Unrecorded(payments: seq<Sales.Payment>, sale: string) {
    forall k :: 0 <= k < |payments| ==> payments[k].sale != sale
  }

  lemma SaleIndex(payments: seq<Sales.Payment>, sale: string)
    ensures Unrecorded(payments, sale) <==> Sales.IndexOf(payments, sale) == |payments|
  {
    var at := Sales.IndexOf(payments, sale);
    assert at < |payments| ==> payments[at].sale == sale;
  }

  /** A first sale is recorded under the subscription it names, completed unless it says otherwise. */
  lemma SaleEventShows(s: Library, sale: Sales.Sale, pk: nat)
    requires sale.agreement.Some? && sale.id.Some? && sale.amount.Some? && Unrecorded(s.payments, sale.id.value)
    requires Has(s.subscriptions.rows, RecordId(), sale.agreement.value, s.subscriptions.next, pk)
    ensures var payment :=
        Sales.Payment(sale.id.value, pk, if sale.status.Some? then sale.status.value else Sales.Completed,
                      sale.amount.value.0, sale.amount.value.1);
      Dispatch(s, SaleEvent(sale)) == Handled(s.(payments := s.payments + [payment]))
  {
    FindsRecord(s.subscriptions, sale.agreement.value, pk);
    SaleIndex(s.payments, sale.id.value);
    hide FindRecord, Has, Unrecorded;
  }

  /** A repeated one changes the status of its payment, and nothing else of it. */
  lemma RepeatedSaleShows(s: Library, sale: Sales.Sale, pk: nat, k: nat)
    requires sale.agreement.Some? && sale.id.Some? && sale.amount.Some?
    requires k < |s.payments| && s.payments[k].sale == sale.id.value && Unrecorded(s.payments[..k], sale.id.value)
    requires Has(s.subscriptions.rows, RecordId(), sale.agreement.value, s.subscriptions.next, pk)
    ensures var status := if sale.status.Some? then sale.status.value else s.payments[k].status;
      Dispatch(s, SaleEvent(sale)) == Handled(s.(payments := s.payments[k := s.payments[k].(status := status)]))
  {
    FindsRecord(s.subscriptions, sale.agreement.value, pk);
    var at := Sales.IndexOf(s.payments, sale.id.value);
    assert forall j :: 0 <= j < k ==> s.payments[..k][j] == s.payments[j];
    hide FindRecord, Has;
  }

  /** A sale whose amount cannot be read is not swallowed. */
  lemma UnreadableSaleFails(s: Library, sale: Sales.Sale, pk: nat)
    requires sale.agreement.Some? && sale.id.Some? && sale.amount.None?
    requires Has(s.subscriptions.rows, RecordId(), sale.agreement.value, s.subscriptions.next, pk)
    ensures Dispatch(s, SaleEvent(sale)) == Failed(UnreadableAmount)
  {
    FindsRecord(s.subscriptions, sale.agreement.value, pk);
    hide FindRecord, Has;
  }

  /** One of no subscription of ours, or without an id, is ignored. */
  lemma ForeignSaleIgnored(s: Library, sale: Sales.Sale)
    requires sale.id.Some? && sale.agreement.Some? ==>
      HasNone(s.subscriptions.rows, RecordId(), sale.agreement.value, s.subscriptions.next)
    ensures Dispatch(s, SaleEvent(sale)) == Handled(s)
  {
    if sale.agreement.Some? {
      FindsRecord(s.subscriptions, sale.agreement.value, 0);
    }
    hide FindRecord, HasNone;
  }

  // ---------- vaulted tokens ----------

  /** The token after an event about it. */
  function TokenTold(t: Token, event: Event): Token
    requires event.VaultEvent?
  {
    if event.action == WasDeleted then t.(status := Deleted)
    else if event.action == DeletionInitiated then t.(status := DeletionPending)
    else Token(event.id, t.live, Active, if event.customer.Some? then event.customer.value else t.customer,
               t.setupCustomer, t.details + event.details)
  }

  lemma TokenEventShows(s: Library, event: Event, pk: nat)
    requires event.VaultEvent? && event.id.Some? && Has(s.tokens.rows, TokenId(), event.id.value, s.tokens.next, pk)
    ensures Dispatch(s, event) ==
      if s.tokens.rows[pk].live != event.live then Handled(s)
      else Handled(s.(tokens := Table(s.tokens.rows[pk := TokenTold(s.tokens.rows[pk], event)], s.tokens.next)))
  {
    FindsToken(s.tokens, event.id.value, pk);
    hide FindToken, Has;
  }

  /** A local attempt of the same customer and environment, not confirmed yet. */
  ghost predicate MayBe(tokens: Table<Token>, customer: Option<string>, live: bool) {
    customer.Some? && exists pk ::
      && pk in tokens.rows && tokens.rows[pk].status == Initiated && tokens.rows[pk].live == live
      && (tokens.rows[pk].customer == customer.value || tokens.rows[pk].setupCustomer == customer)
  }

  lemma MayBeIs(tokens: Table<Token>, customer: Option<string>, live: bool)
    ensures MayMatchAny(tokens, customer, live) <==> MayBe(tokens, customer, live)
  {}

  /** An unknown token that no local attempt may turn out to be gets a row of its own. */
  lemma TokenEventAdopts(s: Library, event: Event)
    requires event.VaultEvent? && event.id.Some? && HasNone(s.tokens.rows, TokenId(), event.id.value, s.tokens.next)
    requires !MayBe(s.tokens, event.customer, event.live)
    ensures var token := TokenTold(Token(event.id, event.live, Initiated, "", None, map[]), event);
      Dispatch(s, event) ==
        Handled(s.(tokens := Table(s.tokens.rows[s.tokens.next := token], s.tokens.next + 1)))
  {
    FindsToken(s.tokens, event.id.value, 0);
    MayBeIs(s.tokens, event.customer, event.live);
    hide FindToken, HasNone, MayMatchAny, MayBe;
  }

  // ---------- retries and strangers ----------

  ghost predicate CaptureMissing(s: Library, id: string) {
    HasNone(s.refunds.captures, CaptureId(), id, s.nextCapture)
  }

  ghost predicate OrderKnown(s: Library, order: Option<string>) {
    order.Some? && !HasNone(s.orders.rows, RecordId(), order.value, s.orders.next)
  }

  /** Ours, but its row is not here yet: an order we know without the capture, or a token an attempt may turn out
      to be. */
  ghost predicate Awaited(s: Library, event: Event) {
    match event
    case CaptureEvent(doc, _, order) => doc.id.Some? && CaptureMissing(s, doc.id.value) && OrderKnown(s, order)
    case RefundEvent(_, capture, order) =>
      (capture.Some? ==> CaptureMissing(s, capture.value)) && OrderKnown(s, order)
    case VaultEvent(_, id, customer, live, _) =>
      id.Some? && HasNone(s.tokens.rows, TokenId(), id.value, s.tokens.next) && MayBe(s.tokens, customer, live)
    case _ => false
  }

  /** PayPal is asked to send an event again exactly when it is ours and its row is not here yet. */
  lemma RetryAskedIff(s: Library, event: Event)
    requires Valid(s)
    ensures Dispatch(s, event) == Failed(NotReady) <==> Awaited(s, event)
  {
    match event {
      case CaptureEvent(doc, _, order) =>
        OrderFinds(s, order);
        if doc.id.Some? {
          FindsCapture(s, doc.id.value, 0);
        }
        hide FindCapture, OrderKnown, OursButMissing;
      case RefundEvent(refund, capture, order) =>
        OrderFinds(s, order);
        if capture.Some? {
          FindsCapture(s, capture.value, 0);
        }
        RefundKeepsValid(s, refund, capture, order);
        hide FindCapture, OrderKnown, OursButMissing, RefundRows.AdoptRemoteRefund;
      case VaultEvent(_, id, customer, live, _) =>
        MayBeIs(s.tokens, customer, live);
        if id.Some? {
          FindsToken(s.tokens, id.value, 0);
        }
        hide FindToken, MayMatchAny, MayBe;
      case _ =>
    }
  }

  lemma OrderFinds(s: Library, order: Option<string>)
    ensures OursButMissing(s, order) <==> OrderKnown(s, order)
  {
    if order.Some? {
      FindsRecord(s.orders, order.value, 0);
    }
  }

  /** An event that names no row of ours and is not awaited either. */
  ghost predicate Foreign(s: Library, event: Event) {
    match event
    case CaptureEvent(doc, _, order) => doc.id.Some? ==> CaptureMissing(s, doc.id.value) && !OrderKnown(s, order)
    case RefundEvent(_, capture, order) =>
      (capture.Some? ==> CaptureMissing(s, capture.value)) && !OrderKnown(s, order)
    case OrderEvent(doc) => doc.id.Some? ==> HasNone(s.orders.rows, RecordId(), doc.id.value, s.orders.next)
    case AuthorizationEvent(doc) =>
      doc.id.Some? ==> HasNone(s.authorizations.rows, RecordId(), doc.id.value, s.authorizations.next)
    case SubscriptionEvent(doc, _) =>
      doc.id.Some? ==> HasNone(s.subscriptions.rows, RecordId(), doc.id.value, s.subscriptions.next)
    case SaleEvent(sale) =>
      sale.id.Some? && sale.agreement.Some? ==>
        HasNone(s.subscriptions.rows, RecordId(), sale.agreement.value, s.subscriptions.next)
    case VaultEvent(_, id, _, _, _) => id.None?
    case OtherEvent => true
  }

  /** Events about someone else's objects change nothing and are not sent again. */
  lemma ForeignIgnored(s: Library, event: Event)
    requires Foreign(s, event)
    ensures Dispatch(s, event) == Handled(s)
  {
    match event {
      case CaptureEvent(doc, _, order) =>
        OrderFinds(s, order);
        if doc.id.Some? {
          FindsCapture(s, doc.id.value, 0);
        }
        hide FindCapture, OrderKnown, OursButMissing;
      case RefundEvent(_, capture, order) =>
        OrderFinds(s, order);
        if capture.Some? {
          FindsCapture(s, capture.value, 0);
        }
        hide FindCapture, OrderKnown, OursButMissing;
      case OrderEvent(doc) => RecordUnknown(s.orders, doc, None);
      case AuthorizationEvent(doc) => RecordUnknown(s.authorizations, doc, None);
      case SubscriptionEvent(doc, implied) => RecordUnknown(s.subscriptions, doc, implied);
      case SaleEvent(sale) => ForeignSaleIgnored(s, sale);
      case VaultEvent(_, _, _, _, _) =>
      case OtherEvent =>
    }
  }
}
