/**
 The built-in webhook handlers and dispatch (paypal_checkout/webhooks/handlers.py): what one
 delivered event does to the local rows.  Timestamps, raw payloads and signals are not modelled.
 */
module Handlers {
  import opened Options
  import RefundPasses
  import RefundRows
  import RefundStore
  import Sales

  // ---------- rows ----------

  /** An order, authorization or subscription row; `details` are its other columns a payload can set. */
  datatype Record = Record(paypalId: Option<string>, status: string, details: map<string, string>)

  /** A resource as update_from_payload reads it: a status it does not know is None. */
  datatype Doc = Doc(id: Option<string>, status: Option<string>, details: map<string, string>)

  datatype Table<T> = Table(rows: map<nat, T>, next: nat)

  const EMPTY: Table<Record> := Table(map[], 0)

  datatype TokenStatus = Initiated | Active | DeletionPending | Deleted

  datatype Token = Token(
    paypalId: Option<string>,
    live: bool,
    status: TokenStatus,
    customer: string,
    setupCustomer: Option<string>,
    details: map<string, string>)

  /** Captures and their refunds are in `refunds`. */
  datatype Library = Library(
    orders: Table<Record>,
    authorizations: Table<Record>,
    subscriptions: Table<Record>,
    tokens: Table<Token>,
    payments: seq<Sales.Payment>,
    refunds: RefundRows.Db,
    nextCapture: nat)

  // ---------- events ----------

  datatype VaultAction = Created | DeletionInitiated | WasDeleted

  datatype Event =
    | CaptureEvent(doc: Doc, final: Option<bool>, order: Option<string>)
    | RefundEvent(refund: RefundRows.Payload, capture: Option<string>, order: Option<string>)
    | OrderEvent(doc: Doc)
    | AuthorizationEvent(doc: Doc)
    | SubscriptionEvent(doc: Doc, implied: Option<string>)
    | SaleEvent(sale: Sales.Sale)
    | VaultEvent(action: VaultAction, id: Option<string>, customer: Option<string>,
      live: bool, details: map<string, string>)
    | OtherEvent

  datatype Failure = NotReady | UnreadableAmount | DatabaseError

  /** The rows a committed run leaves, or the exception that rolled it back. */
  datatype Outcome = Handled(state: Library) | Failed(why: Failure)

  // ---------- queries ----------

  /** The first row with this PayPal id. */
  function Find<T>(rows: map<nat, T>, idOf: T -> Option<string>, id: string, bound: nat): (r: Option<nat>)
    ensures r.Some? ==> r.value < bound && r.value in rows && idOf(rows[r.value]) == Some(id)
    ensures r.Some? ==> forall pk :: pk in rows && pk < r.value ==> idOf(rows[pk]) != Some(id)
    ensures r.None? ==> forall pk :: pk in rows && pk < bound ==> idOf(rows[pk]) != Some(id)
  {
    if bound == 0 then None
    else
      var before := Find(rows, idOf, id, bound - 1);
      if before.Some? then before
      else if bound - 1 in rows && idOf(rows[bound - 1]) == Some(id) then Some(bound - 1)
      else None
  }

  function FindRecord(t: Table<Record>, id: string): Option<nat> {
    Find(t.rows, (r: Record) => r.paypalId, id, t.next)
  }

  function FindToken(t: Table<Token>, id: string): Option<nat> {
    Find(t.rows, (r: Token) => r.paypalId, id, t.next)
  }

  function FindCapture(s: Library, id: string): Option<nat> {
    Find(s.refunds.captures, (r: RefundRows.Capture) => r.paypalId, id, s.nextCapture)
  }

  /** The resource names an order of ours, so its missing row is still on its way. */
  predicate OursButMissing(s: Library, order: Option<string>) {
    order.Some? && FindRecord(s.orders, order.value).Some?
  }

  // ---------- updates ----------

  function Updated(r: Record, doc: Doc): Record {
    Record(if doc.id.Some? then doc.id else r.paypalId,
           if doc.status.Some? then doc.status.value else r.status,
           r.details + doc.details)
  }

  function UpdateRecord(t: Table<Record>, doc: Doc, implied: Option<string>): Table<Record> {
    if doc.id.None? then t
    else
      var pk := FindRecord(t, doc.id.value);
      if pk.None? then t
      else
        var row := Updated(t.rows[pk.value], doc);
        t.(rows := t.rows[pk.value := if implied.Some? then row.(status := implied.value) else row])
  }

  /** Capture.sync_refund_status. */
  function Sync(s: Library, capture: nat): Library {
    s.(refunds := RefundRows.SyncStatus(s.refunds, capture))
  }

  function UpdateCapture(s: Library, pk: nat, row: RefundRows.Capture): Library {
    s.(refunds := s.refunds.(captures := s.refunds.captures[pk := row]))
  }

  // ---------- handlers ----------

  function HandleCapture(s: Library, doc: Doc, final: Option<bool>, order: Option<string>): Outcome {
    if doc.id.None? then Handled(s)
    else
      var pk := FindCapture(s, doc.id.value);
      if pk.None? then if OursButMissing(s, order) then Failed(NotReady) else Handled(s)
      else
        var row := s.refunds.captures[pk.value];
        Handled(UpdateCapture(s, pk.value,
          row.(paypalId := doc.id,
               status := if doc.status.Some? then doc.status.value else row.status,
               final := if final.Some? then final.value else row.final)))
  }

  function HandleRefund(s: Library, refund: RefundRows.Payload,
    capture: Option<string>, order: Option<string>): Outcome {
    var pk := if capture.Some? then FindCapture(s, capture.value) else None;
    if pk.None? then if OursButMissing(s, order) then Failed(NotReady) else Handled(s)
    else
      match RefundRows.AdoptRemoteRefund(s.refunds, pk.value, refund)
      case Raised(_) => Failed(DatabaseError)
      case Done(refunds, _) => Handled(Sync(s.(refunds := refunds), pk.value))
  }

  /** Ids of our active or known subscriptions, for a sale's billing agreement. */
  function Agreements(t: Table<Record>, agreement: Option<string>): Sales.Subscriptions {
    var pk := if agreement.Some? then FindRecord(t, agreement.value) else None;
    if pk.Some? then map[agreement.value := pk.value] else map[]
  }

  function HandleSale(s: Library, sale: Sales.Sale): Outcome {
    var payments := Sales.Deliver(Agreements(s.subscriptions, sale.agreement), s.payments, sale);
    if payments.None? then Failed(UnreadableAmount) else Handled(s.(payments := payments.value))
  }

  /** A local attempt that the unknown token may turn out to be. */
  predicate MayMatch(t: Token, customer: Option<string>, live: bool) {
    && t.status.Initiated? && t.live == live && customer.Some?
    && (t.customer == customer.value || t.setupCustomer == customer)
  }

  predicate MayMatchAny(tokens: Table<Token>, customer: Option<string>, live: bool) {
    exists pk :: pk in tokens.rows && MayMatch(tokens.rows[pk], customer, live)
  }

  function Applied(t: Token, event: Event): Token
    requires event.VaultEvent?
  {
    match event.action
    case Created =>
      t.(paypalId := event.id, status := Active,
         customer := if event.customer.Some? then event.customer.value else t.customer,
         details := t.details + event.details)
    case DeletionInitiated => t.(status := DeletionPending)
    case WasDeleted => t.(status := Deleted)
  }

  function AdoptedToken(event: Event): Token
    requires event.VaultEvent?
  {
    Token(event.id, event.live, Initiated, "", None, map[])
  }

  function HandleVault(s: Library, event: Event): Outcome
    requires event.VaultEvent?
  {
    if event.id.None? then Handled(s)
    else
      var pk := FindToken(s.tokens, event.id.value);
      if pk.Some? then
        var token := s.tokens.rows[pk.value];
        if token.live != event.live then Handled(s)
        else Handled(s.(tokens := s.tokens.(rows := s.tokens.rows[pk.value := Applied(token, event)])))
      else if MayMatchAny(s.tokens, event.customer, event.live) then Failed(NotReady)
      else
        var rows := s.tokens.rows[s.tokens.next := Applied(AdoptedToken(event), event)];
        Handled(s.(tokens := Table(rows, s.tokens.next + 1)))
  }

  /** dispatch, with the built-in handlers registered. */
  function Dispatch(s: Library, event: Event): Outcome {
    match event
    case CaptureEvent(doc, final, order) => HandleCapture(s, doc, final, order)
    case RefundEvent(refund, capture, order) => HandleRefund(s, refund, capture, order)
    case OrderEvent(doc) => Handled(s.(orders := UpdateRecord(s.orders, doc, None)))
    case AuthorizationEvent(doc) => Handled(s.(authorizations := UpdateRecord(s.authorizations, doc, None)))
    case SubscriptionEvent(doc, implied) => Handled(s.(subscriptions := UpdateRecord(s.subscriptions, doc, implied)))
    case SaleEvent(sale) => HandleSale(s, sale)
    case VaultEvent(_, _, _, _, _) => HandleVault(s, event)
    case OtherEvent => Handled(s)
  }

  /** The rows after the event was dispatched n times, each run committed or rolled back. */
  function Deliver(s: Library, event: Event, n: nat): Library {
    if n == 0 then s
    else
      var before := Deliver(s, event, n - 1);
      match Dispatch(before, event)
      case Handled(after) => after
      case Failed(_) => before
  }

  // ---------- idempotence ----------

  /** What the database guarantees: its constraints on refunds, and fresh primary keys for tokens. */
  ghost predicate Valid(s: Library) {
    && RefundRows.TableOk(s.refunds)
    && (forall pk :: pk in s.tokens.rows ==> pk < s.tokens.next)
  }

  /** A lookup depends on the rows' ids only. */
  lemma FindSame<T>(rows: map<nat, T>, other: map<nat, T>, idOf: T -> Option<string>, id: string, bound: nat)
    requires rows.Keys == other.Keys && forall pk :: pk in rows ==> idOf(rows[pk]) == idOf(other[pk])
    ensures Find(rows, idOf, id, bound) == Find(other, idOf, id, bound)
  {
    var mine, theirs := Find(rows, idOf, id, bound), Find(other, idOf, id, bound);
    assert mine.Some? ==> idOf(other[mine.value]) == Some(id);
    assert theirs.Some? ==> idOf(rows[theirs.value]) == Some(id);
  }

  lemma UpdatedTwice(r: Record, doc: Doc)
    ensures Updated(Updated(r, doc), doc) == Updated(r, doc)
  {
    assert (r.details + doc.details) + doc.details == r.details + doc.details;
  }

  lemma RecordTwice(t: Table<Record>, doc: Doc, implied: Option<string>)
    ensures UpdateRecord(UpdateRecord(t, doc, implied), doc, implied) == UpdateRecord(t, doc, implied)
  {
    if doc.id.Some? && FindRecord(t, doc.id.value).Some? {
      var pk, after := FindRecord(t, doc.id.value).value, UpdateRecord(t, doc, implied);
      FindSame(t.rows, after.rows, (r: Record) => r.paypalId, doc.id.value, t.next);
      UpdatedTwice(t.rows[pk], doc);
      var updated := Updated(t.rows[pk], doc);
      assert Updated(updated, doc).(status := updated.status) == updated;
    }
  }

  /** Adopting a refund twice is adopting it once, even if the capture's own columns changed in between. */
  lemma AdoptTwice(db: RefundRows.Db, after: RefundRows.Db, capture: nat, p: RefundRows.Payload,
                   captures: map<nat, RefundRows.Capture>)
    requires RefundRows.TableOk(db) && captures.Keys == db.captures.Keys
    requires RefundRows.AdoptRemoteRefund(db, capture, p).Done?
    requires RefundRows.AdoptRemoteRefund(db, capture, p).db == after
    ensures var again := after.(captures := captures);
      RefundRows.AdoptRemoteRefund(again, capture, p).Done? &&
        RefundRows.AdoptRemoteRefund(again, capture, p).db == again
  {
    if p.id.Some? {
      var known := RefundRows.First(db.rows, RefundRows.WithPaypalId(p.id.value), db.nextPk);
      var pk := if known.Some? then known.value else db.nextPk;
      var again := RefundRows.First(after.rows, RefundRows.WithPaypalId(p.id.value), after.nextPk);
      assert after.rows[pk].paypalId == p.id && pk < after.nextPk;
      assert again == Some(pk);
      assert after.rows[pk := after.rows[pk]] == after.rows;
    }
  }

  lemma CaptureTwice(s: Library, doc: Doc, final: Option<bool>, order: Option<string>)
    requires HandleCapture(s, doc, final, order).Handled?
    ensures var t := HandleCapture(s, doc, final, order).state; HandleCapture(t, doc, final, order) == Handled(t)
  {
    var t := HandleCapture(s, doc, final, order).state;
    if doc.id.Some? && FindCapture(s, doc.id.value).Some? {
      FindSame(s.refunds.captures, t.refunds.captures, (r: RefundRows.Capture) => r.paypalId, doc.id.value,
        s.nextCapture);
    }
  }

  lemma SyncTwice(s: Library, capture: nat)
    ensures Sync(Sync(s, capture), capture) == Sync(s, capture)
  {}

  lemma RefundTwice(s: Library, refund: RefundRows.Payload, capture: Option<string>, order: Option<string>)
    requires Valid(s) && HandleRefund(s, refund, capture, order).Handled?
    ensures var t := HandleRefund(s, refund, capture, order).state;
      HandleRefund(t, refund, capture, order) == Handled(t)
  {
    var pk := if capture.Some? then FindCapture(s, capture.value) else None;
    if pk.Some? {
      var adopted := RefundRows.AdoptRemoteRefund(s.refunds, pk.value, refund).db;
      var mid := s.(refunds := adopted);
      var t := Sync(mid, pk.value);
      FindSame(s.refunds.captures, t.refunds.captures, (r: RefundRows.Capture) => r.paypalId, capture.value,
        s.nextCapture);
      AdoptTwice(s.refunds, adopted, pk.value, refund, t.refunds.captures);
      SyncTwice(mid, pk.value);
    }
  }

  lemma SaleTwice(s: Library, sale: Sales.Sale)
    requires HandleSale(s, sale).Handled?
    ensures var t := HandleSale(s, sale).state; HandleSale(t, sale) == Handled(t)
  {
    var known := Agreements(s.subscriptions, sale.agreement);
    var after := Sales.Deliver(known, s.payments, sale).value;
    if Sales.Counts(known, sale) {
      var k := Sales.IndexOf(s.payments, sale.id.value);
      assert after[k].sale == sale.id.value;
      var again := Sales.IndexOf(after, sale.id.value);
      assert forall j :: 0 <= j < k ==> after[j] == s.payments[j];
      assert again == k;
      assert after[k := after[k]] == after;
    }
  }

  lemma AppliedTwice(t: Token, event: Event)
    requires event.VaultEvent?
    ensures Applied(Applied(t, event), event) == Applied(t, event)
  {
    assert (t.details + event.details) + event.details == t.details + event.details;
  }

  lemma VaultTwice(s: Library, event: Event)
    requires Valid(s) && event.VaultEvent? && HandleVault(s, event).Handled?
    ensures var t := HandleVault(s, event).state; HandleVault(t, event) == Handled(t)
  {
    var t := HandleVault(s, event).state;
    if event.id.Some? {
      var found := FindToken(s.tokens, event.id.value);
      AppliedTwice(if found.Some? then s.tokens.rows[found.value] else AdoptedToken(event), event);
      var pk := if found.Some? then found.value else s.tokens.next;
      assert t.tokens.rows[pk].paypalId == event.id;
      assert FindToken(t.tokens, event.id.value) == Some(pk);
      assert t.tokens.rows[pk := t.tokens.rows[pk]] == t.tokens.rows;
    }
  }

  /** A run that committed, repeated, changes no row. */
  lemma DispatchTwice(s: Library, event: Event)
    requires Valid(s) && Dispatch(s, event).Handled?
    ensures var t := Dispatch(s, event).state; Dispatch(t, event) == Handled(t)
  {
    match event {
      case CaptureEvent(doc, final, order) => CaptureTwice(s, doc, final, order);
      case RefundEvent(refund, capture, order) => RefundTwice(s, refund, capture, order);
      case OrderEvent(doc) => RecordTwice(s.orders, doc, None);
      case AuthorizationEvent(doc) => RecordTwice(s.authorizations, doc, None);
      case SubscriptionEvent(doc, implied) => RecordTwice(s.subscriptions, doc, implied);
      case SaleEvent(sale) => SaleTwice(s, sale);
      case VaultEvent(_, _, _, _, _) => VaultTwice(s, event);
      case OtherEvent =>
    }
  }

  /** Dispatching an event any number of times leaves the rows one dispatch leaves. */
  lemma {:induction false} DispatchIdempotent(s: Library, event: Event, n: nat)
    requires Valid(s) && n > 0
    ensures Deliver(s, event, n) == Deliver(s, event, 1)
  {
    assert Deliver(s, event, 0) == s;
    if n > 1 {
      DispatchIdempotent(s, event, n - 1);
      if Dispatch(s, event).Handled? {
        DispatchTwice(s, event);
      }
    }
  }

  // ---------- constraints ----------

  /** A capture's own columns are not what the constraints are about. */
  lemma CaptureSaved(db: RefundRows.Db, pk: nat, row: RefundRows.Capture)
    requires RefundRows.TableOk(db) && pk in db.captures
    ensures RefundRows.TableOk(db.(captures := db.captures[pk := row]))
  {}

  lemma RefundKeepsValid(s: Library, refund: RefundRows.Payload, capture: Option<string>, order: Option<string>)
    requires Valid(s)
    ensures var r := HandleRefund(s, refund, capture, order);
      (r.Handled? ==> Valid(r.state)) && (r.Failed? ==> r.why.NotReady?)
  {
    var pk := if capture.Some? then FindCapture(s, capture.value) else None;
    if pk.Some? {
      if refund.id.Some? {
        RefundPasses.AdoptSucceeds(s.refunds, pk.value, refund);
      }
      var db := RefundRows.AdoptRemoteRefund(s.refunds, pk.value, refund).db;
      var mid := s.(refunds := db);
      if pk.value in db.captures && Sync(mid, pk.value) != mid {
        CaptureSaved(db, pk.value, Sync(mid, pk.value).refunds.captures[pk.value]);
      }
    }
  }

  /** Every committed run keeps the constraints, and no run fails because it broke one. */
  lemma DispatchKeepsValid(s: Library, event: Event)
    requires Valid(s)
    ensures Dispatch(s, event).Handled? ==> Valid(Dispatch(s, event).state)
    ensures Dispatch(s, event).Failed? ==> !Dispatch(s, event).why.DatabaseError?
  {
    match event {
      case RefundEvent(refund, capture, order) => RefundKeepsValid(s, refund, capture, order);
      case CaptureEvent(doc, final, order) =>
        if doc.id.Some? && FindCapture(s, doc.id.value).Some? {
          var pk := FindCapture(s, doc.id.value).value;
          CaptureSaved(s.refunds, pk, HandleCapture(s, doc, final, order).state.refunds.captures[pk]);
        }
      case _ =>
    }
  }

  // ---------- the handlers run ----------

  class Database {
    var orders: Table<Record>
    var authorizations: Table<Record>
    var subscriptions: Table<Record>
    var tokens: Table<Token>
    var nextCapture: nat
    const sales: Sales.PaymentTable
    const store: RefundStore.Store

    constructor (sales: Sales.PaymentTable, store: RefundStore.Store)
      ensures this.sales == sales && this.store == store
      ensures State() == Library(EMPTY, EMPTY, EMPTY, Table(map[], 0), sales.payments, store.State(), 0)
    {
      orders, authorizations, subscriptions, tokens, nextCapture := EMPTY, EMPTY, EMPTY, Table(map[], 0), 0;
      this.sales, this.store := sales, store;
    }

    function State(): Library
      reads this, sales, store
    {
      Library(orders, authorizations, subscriptions, tokens, sales.payments, store.State(), nextCapture)
    }

    /** update_from_payload, then the status the event's name implies if the payload did not carry it. */
    method Apply(t: Table<Record>, doc: Doc, implied: Option<string>) returns (r: Table<Record>)
      ensures r == UpdateRecord(t, doc, implied)
    {
      r := t;
      if doc.id.None? {
        return;
      }
      var pk := FindRecord(t, doc.id.value);
      if pk.None? {
        return;
      }
      r := Table(r.rows[pk.value := Updated(r.rows[pk.value], doc)], r.next);
      if implied.Some? && r.rows[pk.value].status != implied.value {
        r := Table(r.rows[pk.value := r.rows[pk.value].(status := implied.value)], r.next);
      }
    }

    method ApplyCapture(doc: Doc, final: Option<bool>, order: Option<string>) returns (ok: bool)
      modifies store`captures
      ensures HandleCapture(old(State()), doc, final, order) == if ok then Handled(State()) else Failed(NotReady)
      ensures !ok ==> State() == old(State())
    {
      if doc.id.None? {
        return true;
      }
      var pk := FindCapture(State(), doc.id.value);
      if pk.None? {
        return !OursButMissing(State(), order);
      }
      var row := store.captures[pk.value].(paypalId := doc.id);
      if doc.status.Some? {
        row := row.(status := doc.status.value);
      }
      if final.Some? {
        row := row.(final := final.value);
      }
      store.captures := store.captures[pk.value := row];
      return true;
    }

    /** A refund event: find the capture, adopt the refund, then sync the capture's status. */
    method ApplyRefund(refund: RefundRows.Payload, capture: Option<string>, order: Option<string>)
      returns (r: Result<(), Failure>)
      modifies store
      ensures HandleRefund(old(State()), refund, capture, order) == if r.Ok? then Handled(State()) else Failed(r.error)
      ensures r.Err? ==> State() == old(State())
    {
      var pk := if capture.Some? then FindCapture(State(), capture.value) else None;
      if pk.None? {
        return if OursButMissing(State(), order) then Err(NotReady) else Ok(());
      }
      var adopted := store.Adopt(pk.value, refund);
      if adopted.Err? {
        return Err(DatabaseError);
      }
      store.SyncRefundStatus(pk.value);
      return Ok(());
    }

    method ApplyVault(event: Event) returns (ok: bool)
      requires event.VaultEvent?
      modifies this`tokens
      ensures HandleVault(old(State()), event) == if ok then Handled(State()) else Failed(NotReady)
      ensures !ok ==> State() == old(State())
    {
      if event.id.None? {
        return true;
      }
      var found := FindToken(tokens, event.id.value);
      if found.None? {
        if MayMatchAny(tokens, event.customer, event.live) {
          return false;
        }
        found := Some(tokens.next);
        tokens := Table(tokens.rows[tokens.next := AdoptedToken(event)], tokens.next + 1);
      }
      var token := tokens.rows[found.value];
      if token.live == event.live {
        tokens := Table(tokens.rows[found.value := Applied(token, event)], tokens.next);
      }
      return true;
    }

    /** One delivery: run the event's handler, which leaves everything as it was if it raises. */
    method Handle(event: Event) returns (r: Result<(), Failure>)
      modifies this, sales, store
      ensures Dispatch(old(State()), event) == if r.Ok? then Handled(State()) else Failed(r.error)
      ensures r.Err? ==> State() == old(State())
    {
      match event
      case CaptureEvent(doc, final, order) =>
        var ok := ApplyCapture(doc, final, order);
        return if ok then Ok(()) else Err(NotReady);
      case RefundEvent(refund, capture, order) =>
        r := ApplyRefund(refund, capture, order);
      case OrderEvent(doc) =>
        orders := Apply(orders, doc, None);
        return Ok(());
      case AuthorizationEvent(doc) =>
        authorizations := Apply(authorizations, doc, None);
        return Ok(());
      case SubscriptionEvent(doc, implied) =>
        subscriptions := Apply(subscriptions, doc, implied);
        return Ok(());
      case SaleEvent(sale) =>
        var ok := sales.HandleSale(Agreements(subscriptions, sale.agreement), sale);
        return if ok then Ok(()) else Err(UnreadableAmount);
      case VaultEvent(_, _, _, _, _) =>
        var ok := ApplyVault(event);
        return if ok then Ok(()) else Err(NotReady);
      case OtherEvent =>
        return Ok(());
    }
  }
}
