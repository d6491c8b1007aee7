/**
 Recurring payments of subscriptions, recorded from PAYMENT.SALE.COMPLETED deliveries
 (handle_subscription_payment in paypal_checkout/webhooks/handlers.py, SubscriptionPayment and
 Subscription.paid_amount in paypal_checkout/models.py).
 */
module Sales {
  import opened Options

  datatype Status = Completed | Pending | Refunded | PartiallyRefunded | Denied | Failed

  datatype Payment = Payment(sale: string, subscription: nat, status: Status, amount: int, currency: string)

  /** A sale resource: None for a member that is missing or, for amount and status, unreadable. */
  datatype Sale = Sale(id: Option<string>, agreement: Option<string>,
    amount: Option<(int, string)>, status: Option<Status>)

  /** The local subscriptions by PayPal id. */
  type Subscriptions = map<string, nat>

  /** A sale of one of our subscriptions that can be identified and read. */
  predicate Counts(known: Subscriptions, d: Sale) {
    d.agreement.Some? && d.agreement.value in known && d.id.Some? && d.amount.Some?
  }

  /** Where the sale is recorded, or the number of payments if it is not. */
  function IndexOf(payments: seq<Payment>, sale: string): (k: nat)
    ensures k <= |payments|
    ensures k < |payments| ==> payments[k].sale == sale
    ensures forall j :: 0 <= j < k ==> payments[j].sale != sale
  {
    if payments == [] || payments[0].sale == sale then 0 else 1 + IndexOf(payments[1..], sale)
  }

  function Updated(p: Payment, d: Sale): Payment {
    if d.status.Some? then p.(status := d.status.value) else p
  }

  /** One delivery; None when the handler raises and PayPal is asked to retry. */
  function Deliver(known: Subscriptions, payments: seq<Payment>, d: Sale): Option<seq<Payment>> {
    if d.agreement.None? || d.agreement.value !in known || d.id.None? then Some(payments)
    else if d.amount.None? then None
    else
      var k := IndexOf(payments, d.id.value);
      if k < |payments| then Some(payments[k := Updated(payments[k], d)])
      else
        var (amount, currency) := d.amount.value;
        Some(payments + [Updated(Payment(d.id.value, known[d.agreement.value], Completed, amount, currency), d)])
  }

  /** The payments after a whole sequence of deliveries. */
  function Ledger(known: Subscriptions, deliveries: seq<Sale>): seq<Payment> {
    if deliveries == [] then []
    else
      var before := Ledger(known, deliveries[..|deliveries| - 1]);
      var after := Deliver(known, before, deliveries[|deliveries| - 1]);
      if after.Some? then after.value else before
  }

  /** Subscription.paid_amount. */
  function PaidAmount(payments: seq<Payment>, subscription: nat): int {
    if payments == [] then 0
    else
      var last := payments[|payments| - 1];
      PaidAmount(payments[..|payments| - 1], subscription)
        + if last.subscription == subscription && last.status.Completed? then last.amount else 0
  }

  // ---------- what PayPal delivered ----------

  /** The i-th delivery is the first that counts for its sale. */
  predicate IsFirst(known: Subscriptions, deliveries: seq<Sale>, i: nat) {
    && i < |deliveries| && Counts(known, deliveries[i])
    && forall j :: 0 <= j < i && Counts(known, deliveries[j]) ==> deliveries[j].id != deliveries[i].id
  }

  /** The status last reported for a sale; completed if no delivery said otherwise. */
  function LastStatus(known: Subscriptions, deliveries: seq<Sale>, sale: string): Status {
    if deliveries == [] then Completed
    else
      var last := deliveries[|deliveries| - 1];
      if Counts(known, last) && last.id == Some(sale) && last.status.Some? then last.status.value
      else LastStatus(known, deliveries[..|deliveries| - 1], sale)
  }

  /** What one delivery adds to a subscription's total, given everything delivered. */
  function Share(known: Subscriptions, deliveries: seq<Sale>, all: seq<Sale>, subscription: nat, i: nat): int
    requires i < |deliveries|
  {
    var d := deliveries[i];
    if IsFirst(known, deliveries, i) && known[d.agreement.value] == subscription
       && LastStatus(known, all, d.id.value).Completed?
    then d.amount.value.0 else 0
  }

  /** The sum, over distinct sales, of the first amount delivered for each sale that is still completed. */
  function FirstAmounts(known: Subscriptions, deliveries: seq<Sale>, all: seq<Sale>, subscription: nat): int {
    if deliveries == [] then 0
    else
      FirstAmounts(known, deliveries[..|deliveries| - 1], all, subscription)
        + Share(known, deliveries, all, subscription, |deliveries| - 1)
  }

  // ---------- the two agree ----------

  /** The first delivery of every sale, in order. */
  function Firsts(known: Subscriptions, deliveries: seq<Sale>): (r: seq<nat>)
    ensures forall k :: 0 <= k < |r| ==> r[k] < |deliveries|
  {
    if deliveries == [] then []
    else
      var n := |deliveries| - 1;
      Firsts(known, deliveries[..n]) + if IsFirst(known, deliveries, n) then [n] else []
  }

  lemma {:induction false} FirstsAreFirst(known: Subscriptions, deliveries: seq<Sale>)
    ensures forall k :: 0 <= k < |Firsts(known, deliveries)| ==>
      IsFirst(known, deliveries, Firsts(known, deliveries)[k])
    ensures forall j, k :: 0 <= j < k < |Firsts(known, deliveries)| ==>
      Firsts(known, deliveries)[j] < Firsts(known, deliveries)[k]
  {
    if deliveries != [] {
      var before := deliveries[..|deliveries| - 1];
      FirstsAreFirst(known, before);
      var done := Firsts(known, before);
      forall k | 0 <= k < |done| ensures IsFirst(known, deliveries, done[k]) {
        assert IsFirst(known, before, done[k]);
      }
    }
  }

  /** Every delivery that counts has its sale among the firsts. */
  lemma {:induction false} FirstOf(known: Subscriptions, deliveries: seq<Sale>, j: nat) returns (k: nat)
    requires j < |deliveries| && Counts(known, deliveries[j])
    ensures k < |Firsts(known, deliveries)| && deliveries[Firsts(known, deliveries)[k]].id == deliveries[j].id
    decreases |deliveries|
  {
    var n := |deliveries| - 1;
    if j < n {
      k := FirstOf(known, deliveries[..n], j);
    } else if IsFirst(known, deliveries, n) {
      k := |Firsts(known, deliveries[..n])|;
    } else {
      var i :| 0 <= i < n && Counts(known, deliveries[i]) && deliveries[i].id == deliveries[n].id;
      k := FirstOf(known, deliveries[..n], i);
    }
  }

  /** A payment is the first delivery of its sale, with the status reported last. */
  ghost predicate Records(known: Subscriptions, deliveries: seq<Sale>, all: seq<Sale>, p: Payment, i: nat) {
    && IsFirst(known, deliveries, i)
    && var d := deliveries[i];
       p == Payment(d.id.value, known[d.agreement.value],
         LastStatus(known, all, d.id.value), d.amount.value.0, d.amount.value.1)
  }

  lemma RecordedOnce(known: Subscriptions, deliveries: seq<Sale>, all: seq<Sale>, payments: seq<Payment>)
    requires |payments| == |Firsts(known, deliveries)|
    requires forall k :: 0 <= k < |payments| ==>
      Records(known, deliveries, all, payments[k], Firsts(known, deliveries)[k])
    ensures forall j, k :: 0 <= j < k < |payments| ==> payments[j].sale != payments[k].sale
  {
    FirstsAreFirst(known, deliveries);
    forall j, k | 0 <= j < k < |payments| ensures payments[j].sale != payments[k].sale {
      assert Records(known, deliveries, all, payments[j], Firsts(known, deliveries)[j]);
      assert Records(known, deliveries, all, payments[k], Firsts(known, deliveries)[k]);
    }
  }

  /** One more delivery leaves another sale's record as it is, and updates its own sale's status. */
  lemma RecordAfter(known: Subscriptions, deliveries: seq<Sale>, p: Payment, i: nat)
    requires deliveries != []
    requires Records(known, deliveries[..|deliveries| - 1], deliveries[..|deliveries| - 1], p, i)
    ensures var last := deliveries[|deliveries| - 1];
      Records(known, deliveries, deliveries,
        if Counts(known, last) && last.id == Some(p.sale) then Updated(p, last) else p, i)
  {}

  /** Where a counting delivery's sale is recorded; nowhere exactly when it is the first. */
  lemma RecordedUnlessFirst(known: Subscriptions, deliveries: seq<Sale>, payments: seq<Payment>)
    requires deliveries != [] && Counts(known, deliveries[|deliveries| - 1])
    requires var before := deliveries[..|deliveries| - 1];
      && |payments| == |Firsts(known, before)|
      && forall k :: 0 <= k < |payments| ==> Records(known, before, before, payments[k], Firsts(known, before)[k])
    ensures IndexOf(payments, deliveries[|deliveries| - 1].id.value) == |payments|
       <==> IsFirst(known, deliveries, |deliveries| - 1)
  {
    var before, last := deliveries[..|deliveries| - 1], deliveries[|deliveries| - 1];
    var firsts, k := Firsts(known, before), IndexOf(payments, last.id.value);
    forall i | 0 <= i < |payments| ensures before[firsts[i]].id == Some(payments[i].sale) {
      assert Records(known, before, before, payments[i], firsts[i]);
    }
    if k < |payments| {
      assert Records(known, before, before, payments[k], firsts[k]);
      assert before[firsts[k]] == deliveries[firsts[k]];
    } else if j :| 0 <= j < |before| && Counts(known, deliveries[j]) && deliveries[j].id == last.id {
      assert before[j] == deliveries[j];
      var i := FirstOf(known, before, j);
      assert false;
    }
  }

  lemma {:induction false} LedgerRecords(known: Subscriptions, deliveries: seq<Sale>)
    ensures |Ledger(known, deliveries)| == |Firsts(known, deliveries)|
    ensures forall k :: 0 <= k < |Ledger(known, deliveries)| ==>
      Records(known, deliveries, deliveries, Ledger(known, deliveries)[k], Firsts(known, deliveries)[k])
  {
    if deliveries == [] {
      return;
    }
    var before, last := deliveries[..|deliveries| - 1], deliveries[|deliveries| - 1];
    LedgerRecords(known, before);
    var payments, firsts, ledger := Ledger(known, before), Firsts(known, before), Ledger(known, deliveries);
    RecordedOnce(known, before, before, payments);
    if Counts(known, last) {
      RecordedUnlessFirst(known, deliveries, payments);
    }
    if IsFirst(known, deliveries, |deliveries| - 1) {
      NewSale(known, deliveries);
      assert Records(known, deliveries, deliveries, ledger[|payments|], |deliveries| - 1);
    }
    hide Records, LastStatus, Updated, IsFirst;
    forall i | 0 <= i < |payments| ensures Records(known, deliveries, deliveries, ledger[i], firsts[i]) {
      RecordAfter(known, deliveries, payments[i], firsts[i]);
    }
  }

  /** A sale no earlier delivery counted for has no earlier status either. */
  lemma NewSale(known: Subscriptions, deliveries: seq<Sale>)
    requires deliveries != [] && IsFirst(known, deliveries, |deliveries| - 1)
    ensures LastStatus(known, deliveries[..|deliveries| - 1], deliveries[|deliveries| - 1].id.value).Completed?
  {
    NeverReported(known, deliveries[..|deliveries| - 1], deliveries[|deliveries| - 1].id.value);
  }

  lemma {:induction false} NeverReported(known: Subscriptions, deliveries: seq<Sale>, sale: string)
    requires forall i :: 0 <= i < |deliveries| && Counts(known, deliveries[i]) ==> deliveries[i].id != Some(sale)
    ensures LastStatus(known, deliveries, sale).Completed?
  {
    if deliveries != [] {
      NeverReported(known, deliveries[..|deliveries| - 1], sale);
    }
  }

  lemma {:induction false} RecordsAddUp(known: Subscriptions, deliveries: seq<Sale>, all: seq<Sale>,
                                        payments: seq<Payment>, subscription: nat)
    requires |payments| == |Firsts(known, deliveries)|
    requires forall k :: 0 <= k < |payments| ==>
      Records(known, deliveries, all, payments[k], Firsts(known, deliveries)[k])
    ensures PaidAmount(payments, subscription) == FirstAmounts(known, deliveries, all, subscription)
    decreases |deliveries|
  {
    if deliveries != [] {
      var n := |deliveries| - 1;
      var before := deliveries[..n];
      var rest := if IsFirst(known, deliveries, n) then payments[..|payments| - 1] else payments;
      forall k | 0 <= k < |rest| ensures Records(known, before, all, rest[k], Firsts(known, before)[k]) {
        assert Records(known, deliveries, all, payments[k], Firsts(known, deliveries)[k]);
        assert Firsts(known, before)[k] < n;
      }
      RecordsAddUp(known, before, all, rest, subscription);
      if IsFirst(known, deliveries, n) {
        assert Records(known, deliveries, all, payments[|payments| - 1], n);
      }
    }
  }

  /**
   After any sequence of deliveries with any repetitions, a subscription has been paid the sum,
   over distinct sales, of the first amount delivered for each sale still completed.
   */
  lemma PaidOncePerSale(known: Subscriptions, deliveries: seq<Sale>, subscription: nat)
    ensures PaidAmount(Ledger(known, deliveries), subscription)
         == FirstAmounts(known, deliveries, deliveries, subscription)
  {
    LedgerRecords(known, deliveries);
    RecordsAddUp(known, deliveries, deliveries, Ledger(known, deliveries), subscription);
  }

  /** When no delivery reports another status, every recorded sale counts. */
  lemma {:induction false} CompletedStays(known: Subscriptions, deliveries: seq<Sale>, sale: string)
    requires forall i :: 0 <= i < |deliveries| && deliveries[i].status.Some? ==> deliveries[i].status.value.Completed?
    ensures LastStatus(known, deliveries, sale).Completed?
  {
    if deliveries != [] {
      CompletedStays(known, deliveries[..|deliveries| - 1], sale);
    }
  }

  /** The sum, over distinct sales, of the first amount delivered for each. */
  function FirstDelivered(known: Subscriptions, deliveries: seq<Sale>, subscription: nat): int {
    if deliveries == [] then 0
    else
      var n := |deliveries| - 1;
      FirstDelivered(known, deliveries[..n], subscription)
        + if IsFirst(known, deliveries, n) && known[deliveries[n].agreement.value] == subscription
          then deliveries[n].amount.value.0 else 0
  }

  lemma {:induction false} AllShares(known: Subscriptions, deliveries: seq<Sale>, all: seq<Sale>, subscription: nat)
    requires forall sale :: LastStatus(known, all, sale).Completed?
    ensures FirstAmounts(known, deliveries, all, subscription) == FirstDelivered(known, deliveries, subscription)
  {
    if deliveries != [] {
      AllShares(known, deliveries[..|deliveries| - 1], all, subscription);
    }
  }

  /** For completed sales: paid_amount is the sum, over distinct sales, of the first amount delivered for each. */
  lemma PaidForCompletedSales(known: Subscriptions, deliveries: seq<Sale>, subscription: nat)
    requires forall i :: 0 <= i < |deliveries| && deliveries[i].status.Some? ==> deliveries[i].status.value.Completed?
    ensures PaidAmount(Ledger(known, deliveries), subscription) == FirstDelivered(known, deliveries, subscription)
  {
    forall sale ensures LastStatus(known, deliveries, sale).Completed? {
      CompletedStays(known, deliveries, sale);
    }
    PaidOncePerSale(known, deliveries, subscription);
    AllShares(known, deliveries, deliveries, subscription);
  }

  // ---------- the handler ----------

  class PaymentTable {
    var payments: seq<Payment>

    /** get_or_create on the sale id, then update_from_payload; a sale with no readable amount raises. */
    method HandleSale(known: Subscriptions, d: Sale) returns (ok: bool)
      modifies this
      ensures ok == Deliver(known, old(payments), d).Some?
      ensures payments == if ok then Deliver(known, old(payments), d).value else old(payments)
    {
      if d.agreement.None? || d.agreement.value !in known || d.id.None? {
        return true;
      }
      if d.amount.None? {
        return false;
      }
      var k := IndexOf(payments, d.id.value);
      if k == |payments| {
        var (amount, currency) := d.amount.value;
        payments := payments + [Payment(d.id.value, known[d.agreement.value], Completed, amount, currency)];
      }
      if d.status.Some? {
        payments := payments[k := payments[k].(status := d.status.value)];
      }
      return true;
    }
  }
}
