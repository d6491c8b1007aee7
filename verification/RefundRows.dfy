/**
 The refund table and, as functions on it, every transaction block that changes it
 (paypal_checkout/payments.py and Capture.start_refund in paypal_checkout/models.py).

 A block that raises rolls back, so an `Outcome` carries a new table only when the block
 committed.  Amounts are counted in minor units of the capture's currency.
 */
module RefundRows {
  import opened Options
  import Decimals
  import RequestIds

  // ---------- entities ----------

  datatype Status = Initiated | Unresolved | Completed | Pending | Cancelled | Failed {
    /** The two local-only statuses: PayPal has not said what became of the attempt. */
    predicate OutcomeUnknown() { Initiated? || Unresolved? }

    /** Counts against what is still refundable. */
    predicate Reserves() { OutcomeUnknown() || Completed? || Pending? }

    /** The money did not move, or came back. */
    predicate Dead() { Cancelled? || Failed? }
  }

  /** The JSON body of a refund request; an absent amount asks for the whole capture. */
  datatype Body = Body(amount: Option<nat>, note: string, invoice: string)

  /** What a merge records about the attempt it deletes. */
  datatype Snapshot = Snapshot(pk: nat, key: Option<string>, body: Option<Body>, amount: nat)

  datatype Refund = Refund(
    capture: nat,
    key: Option<string>,
    paypalId: Option<string>,
    status: Status,
    amount: nat,
    note: string,
    invoice: string,
    body: Option<Body>,
    merged: seq<Snapshot>)

  /** `status` and `final` change only through webhooks and reconciliation, never in the blocks below. */
  datatype Capture = Capture(order: nat, paypalId: Option<string>, amount: nat, status: string, final: bool)

  /** PayPal's view of a refund; None stands for a member that is absent or unreadable. */
  datatype Payload = Payload(id: Option<string>, status: Option<Status>, amount: Option<nat>)

  /** A refund object held in memory, possibly older than its row. */
  datatype Handle = Handle(pk: nat, capture: nat, key: Option<string>, body: Option<Body>)

  datatype Db = Db(captures: map<nat, Capture>, rows: map<nat, Refund>, nextPk: nat)

  datatype Error =
    | CaptureMissing
    | AmountUnsendable
    | UnresolvedAttempt(pk: nat)
    | AmountExceeded
    | IntegrityError
    | DoesNotExist
    | NotUnresolved
    | NoSentBody
    | NotConfirmed
    | SelfMerge
    | OtherCapture
    | SurvivorUnconfirmed
    | SurvivorTaken

  datatype Outcome<+T> = Done(db: Db, value: T) | Raised(error: Error)

  function HandleOf(pk: nat, row: Refund): Handle {
    Handle(pk, row.capture, row.key, row.body)
  }

  // ---------- queries ----------

  datatype Query =
    | UnknownOutcome(capture: nat)
    | InitiatedIn(capture: nat)
    | WithPaypalId(id: string)
    | OtherWithPaypalId(id: string, pk: nat)
    | WithKey(key: Option<string>)

  predicate Matches(q: Query, pk: nat, row: Refund) {
    match q
    case UnknownOutcome(c) => row.capture == c && row.status.OutcomeUnknown()
    case InitiatedIn(c) => row.capture == c && row.status.Initiated?
    case WithPaypalId(id) => row.paypalId == Some(id)
    case OtherWithPaypalId(id, other) => row.paypalId == Some(id) && pk != other
    case WithKey(k) => row.key == k
  }

  /** The matching row with the lowest primary key below the bound. */
  function First(rows: map<nat, Refund>, q: Query, bound: nat): (r: Option<nat>)
    ensures r.Some? ==> r.value < bound && r.value in rows && Matches(q, r.value, rows[r.value])
    ensures r.Some? ==> forall pk :: pk in rows && pk < r.value ==> !Matches(q, pk, rows[pk])
    ensures r.None? ==> forall pk :: pk in rows && pk < bound ==> !Matches(q, pk, rows[pk])
  {
    if bound == 0 then None
    else
      var before := First(rows, q, bound - 1);
      if before.Some? then before
      else if bound - 1 in rows && Matches(q, bound - 1, rows[bound - 1]) then Some(bound - 1)
      else None
  }

  /** What one row takes out of a capture's refundable amount. */
  function Weight(rows: map<nat, Refund>, capture: nat, pk: nat): nat {
    if pk in rows && rows[pk].capture == capture && rows[pk].status.Reserves() then rows[pk].amount else 0
  }

  function ReservedBelow(rows: map<nat, Refund>, capture: nat, bound: nat): nat {
    if bound == 0 then 0
    else ReservedBelow(rows, capture, bound - 1) + Weight(rows, capture, bound - 1)
  }

  /** Capture.reserved_refund_amount. */
  function Reserved(db: Db, capture: nat): nat {
    ReservedBelow(db.rows, capture, db.nextPk)
  }

  /** Capture.refundable_amount; negative while an adopted refund is counted twice. */
  function Refundable(db: Db, capture: nat): int
    requires capture in db.captures
  {
    db.captures[capture].amount - Reserved(db, capture)
  }

  /** Capture.refunded_amount: completed refunds only. */
  function CompletedBelow(rows: map<nat, Refund>, capture: nat, bound: nat): nat {
    if bound == 0 then 0
    else CompletedBelow(rows, capture, bound - 1) + CompletedAt(rows, capture, bound - 1)
  }

  function CompletedAt(rows: map<nat, Refund>, capture: nat, pk: nat): nat {
    if pk in rows && rows[pk].capture == capture && rows[pk].status.Completed? then rows[pk].amount else 0
  }

  /** The unique constraints on request_id and paypal_id admit this row. */
  predicate Accepts(rows: map<nat, Refund>, pk: nat, row: Refund) {
    forall other :: other in rows && other != pk ==>
      && (row.key.Some? ==> rows[other].key != row.key)
      && (row.paypalId.Some? ==> rows[other].paypalId != row.paypalId)
  }

  /** Foreign keys resolve, primary keys are below the counter, and both unique constraints hold. */
  ghost predicate TableOk(db: Db) {
    && (forall pk :: pk in db.rows ==> pk < db.nextPk && db.rows[pk].capture in db.captures)
    && (forall p, q :: p in db.rows && q in db.rows && p != q && db.rows[p].key.Some? ==>
      db.rows[p].key != db.rows[q].key)
    && (forall p, q :: p in db.rows && q in db.rows && p != q && db.rows[p].paypalId.Some? ==>
          db.rows[p].paypalId != db.rows[q].paypalId)
  }

  // ---------- transaction blocks ----------

  function UpdateFromPayload(row: Refund, p: Payload): Refund {
    row.(paypalId := if p.id.Some? then p.id else row.paypalId,
         status := if p.status.Some? then p.status.value else row.status)
  }

  function FreshAttempt(capture: nat, amount: nat, note: string, invoice: string, body: Option<Body>): Refund {
    Refund(capture, None, None, Initiated, amount, note, invoice, body, [])
  }

  function StartRefund(db: Db, capture: nat, amount: Option<nat>, note: string, invoice: string,
                       body: Option<Body>): Outcome<nat>
  {
    if capture !in db.captures then Raised(CaptureMissing)
    else
      var pending := First(db.rows, UnknownOutcome(capture), db.nextPk);
      if pending.Some? then Raised(UnresolvedAttempt(pending.value))
      else
        var requested := if amount.Some? then amount.value else db.captures[capture].amount;
        if requested > Refundable(db, capture) then Raised(AmountExceeded)
        else
          var pk := db.nextPk;
          var row := FreshAttempt(capture, requested, note, invoice, body);
          var keyed := row.(key := Some(RequestIds.RefundRequestId(db.captures[capture].order, pk)));
          if !Accepts(db.rows[pk := row], pk, keyed) then Raised(IntegrityError)
          else Done(db.(rows := db.rows[pk := keyed], nextPk := pk + 1), pk)
  }

  function SnapshotOf(pk: nat, row: Refund): Snapshot {
    Snapshot(pk, row.key, row.body, row.amount)
  }

  /** The survivor after it took over the attempt's key, body and texts. */
  function Absorb(survivor: Refund, attemptPk: nat, attempt: Refund): Refund {
    survivor.(key := attempt.key, body := attempt.body, note := attempt.note, invoice := attempt.invoice,
              merged := survivor.merged + [SnapshotOf(attemptPk, attempt)])
  }

  /** Two saves and a delete: the attempt lets go of its key before the survivor takes it. */
  function MergeRows(rows: map<nat, Refund>, attempt: nat, survivor: nat): Option<map<nat, Refund>>
    requires attempt in rows && survivor in rows && attempt != survivor
  {
    var cleared := rows[attempt].(key := None);
    if !Accepts(rows, attempt, cleared) then None
    else
      var released := rows[attempt := cleared];
      var taken := Absorb(rows[survivor], attempt, rows[attempt]);
      if !Accepts(released, survivor, taken) then None
      else Some(released[survivor := taken] - {attempt})
  }

  /** The value is the surviving row and whether payment_refunded is sent. */
  function SettleRefund(db: Db, h: Handle, p: Payload): Outcome<(nat, bool)> {
    if h.capture !in db.captures then Raised(DoesNotExist)
    else if h.pk !in db.rows then
      var survivor := First(db.rows, WithKey(h.key), db.nextPk);
      if survivor.None? then Raised(DoesNotExist) else Done(db, (survivor.value, false))
    else
      var adopted := if p.id.Some? then First(db.rows, OtherWithPaypalId(p.id.value, h.pk), db.nextPk) else None;
      if adopted.Some? then
        var merged := MergeRows(db.rows, h.pk, adopted.value);
        if merged.None? then Raised(IntegrityError)
        else Done(db.(rows := merged.value), (adopted.value, false))
      else
        var row := UpdateFromPayload(db.rows[h.pk], p);
        if !Accepts(db.rows, h.pk, row) then Raised(IntegrityError)
        else Done(db.(rows := db.rows[h.pk := row]), (h.pk, row.status.Completed?))
  }

  /** The row a stale handle stands for: its own, or the one its key moved to. */
  function Locate(db: Db, h: Handle): Option<nat> {
    if h.pk in db.rows then Some(h.pk) else First(db.rows, WithKey(h.key), db.nextPk)
  }

  function MarkRefundFailed(db: Db, h: Handle): Outcome<Option<nat>> {
    if h.capture !in db.captures then Raised(DoesNotExist)
    else
      var current := Locate(db, h);
      if current.Some? && db.rows[current.value].status.OutcomeUnknown() then
        Done(db.(rows := db.rows[current.value := db.rows[current.value].(status := Failed)]), current)
      else Done(db, None)
  }

  /** Every other INITIATED row of the capture becomes UNRESOLVED. */
  function FlagOthers(rows: map<nat, Refund>, capture: nat, except: nat): map<nat, Refund> {
    map pk | pk in rows ::
      if rows[pk].capture == capture && rows[pk].status.Initiated? && pk != except
      then rows[pk].(status := Unresolved) else rows[pk]
  }

  /** The row inserted for a refund first heard of from PayPal, before its payload is applied. */
  function AdoptedInsert(db: Db, capture: nat, p: Payload): Refund
    requires capture in db.captures
  {
    var amount := if p.amount.Some? then p.amount.value else db.captures[capture].amount;
    Refund(capture, None, p.id, Initiated, amount, "", "", None, [])
  }

  function AdoptedRow(db: Db, capture: nat, p: Payload): Refund
    requires capture in db.captures
  {
    UpdateFromPayload(AdoptedInsert(db, capture, p), p)
  }

  function AdoptRemoteRefund(db: Db, capture: nat, p: Payload): Outcome<Option<nat>> {
    if p.id.None? then Done(db, None)
    else if capture !in db.captures then Raised(DoesNotExist)
    else
      var known := First(db.rows, WithPaypalId(p.id.value), db.nextPk);
      if known.Some? then
        var row := UpdateFromPayload(db.rows[known.value], p);
        if !Accepts(db.rows, known.value, row) then Raised(IntegrityError)
        else Done(db.(rows := db.rows[known.value := row]), known)
      else
        var pk := db.nextPk;
        var row := AdoptedRow(db, capture, p);
        if !Accepts(db.rows, pk, row) then Raised(IntegrityError)
        else Done(db.(rows := FlagOthers(db.rows[pk := row], capture, pk), nextPk := pk + 1), Some(pk))
  }

  function MergeRefundAttempt(db: Db, attempt: Handle, survivor: nat): Outcome<nat> {
    if attempt.pk == survivor then Raised(SelfMerge)
    else if attempt.capture !in db.captures || attempt.pk !in db.rows || survivor !in db.rows then Raised(DoesNotExist)
    else
      var a, s := db.rows[attempt.pk], db.rows[survivor];
      if a.capture != s.capture then Raised(OtherCapture)
      else if !a.status.OutcomeUnknown() then Raised(NotUnresolved)
      else if s.paypalId.None? then Raised(SurvivorUnconfirmed)
      else if s.key.Some? then Raised(SurvivorTaken)
      else
        var merged := MergeRows(db.rows, attempt.pk, survivor);
        if merged.None? then Raised(IntegrityError) else Done(db.(rows := merged.value), survivor)
  }

  /** Whether an amount in minor units can be written as a PayPal amount. */
  predicate Sendable(amount: nat) {
    amount < Decimals.Pow10(Decimals.PRECISION)
  }

  /** _refund_body and refund_capture up to the request: the body is stored with the attempt. */
  function RefundCapture(db: Db, capture: nat, amount: Option<nat>, note: string, invoice: string): Outcome<nat> {
    if capture in db.captures && db.captures[capture].paypalId.None? then Raised(NotConfirmed)
    else if amount.Some? && !Sendable(amount.value) then Raised(AmountUnsendable)
    else StartRefund(db, capture, amount, note, invoice, Some(Body(amount, note, invoice)))
  }

  /** Issues that prove this request made no refund. */
  const TERMINAL_REFUND_ISSUES := {
    "CAPTURE_FULLY_REFUNDED", "CAPTURED_AMOUNT_FULLY_REFUNDED", "PREVIOUSLY_REFUNDED",
    "REFUND_AMOUNT_EXCEEDED", "REFUND_FAILED_BY_PAYMENT_SOURCE", "TRANSACTION_REFUSED"
  }

  /** What comes back for a posted refund: a representation, an API error with its issues, or nothing. */
  datatype PostResult = Answered(payload: Payload) | ApiError(issues: set<string>) | NoAnswer

  /** _post_refund: settle an answer, fail the attempt on proof, and otherwise leave it unresolved. */
  function PostRefund(db: Db, h: Handle, result: PostResult): Db {
    match result
    case Answered(p) => TableAfter(db, SettleRefund(db, h, p))
    case ApiError(issues) =>
      if issues * TERMINAL_REFUND_ISSUES != {} then TableAfter(db, MarkRefundFailed(db, h)) else db
    case NoAnswer => db
  }

  /** The table after a block, unchanged if it raised. */
  function TableAfter<T>(db: Db, outcome: Outcome<T>): Db {
    match outcome
    case Done(after, _) => after
    case Raised(_) => db
  }

  /** What retry_refund does: post the refreshed attempt, or return the row it was merged into. */
  datatype Retry = Post(handle: Handle) | AlreadyMerged(pk: nat) | RetryRaised(error: Error)

  function RetryRefund(db: Db, h: Handle): Retry {
    if h.pk in db.rows then
      var row := db.rows[h.pk];
      if !row.status.OutcomeUnknown() then RetryRaised(NotUnresolved)
      else if row.body.None? then RetryRaised(NoSentBody)
      else if row.capture !in db.captures || db.captures[row.capture].paypalId.None? then RetryRaised(NotConfirmed)
      else Post(HandleOf(h.pk, row))
    else
      var survivor := First(db.rows, WithKey(h.key), db.nextPk);
      if survivor.Some? then AlreadyMerged(survivor.value) else RetryRaised(DoesNotExist)
  }

  // ---------- the capture's own status ----------

  const INITIATED := "INITIATED"

  /** Capture.sync_refund_status: completed refunds show in the capture's status. */
  function SyncStatus(db: Db, capture: nat): Db {
    var refunded := CompletedBelow(db.rows, capture, db.nextPk);
    if refunded == 0 || capture !in db.captures then db
    else
      var status := if refunded >= db.captures[capture].amount then "REFUNDED" else "PARTIALLY_REFUNDED";
      db.(captures := db.captures[capture := db.captures[capture].(status := status)])
  }

  // ---------- sums ----------

  /** Two tables that agree on every other row differ by that row's weights. */
  lemma {:induction false} ReservedDiffersAt(before: map<nat, Refund>, after: map<nat, Refund>, capture: nat,
                                             pk: nat, bound: nat)
    requires forall q :: q != pk ==> Weight(before, capture, q) == Weight(after, capture, q)
    ensures pk < bound ==>
      ReservedBelow(after, capture, bound)
        == ReservedBelow(before, capture, bound) + Weight(after, capture, pk) - Weight(before, capture, pk)
    ensures pk >= bound ==> ReservedBelow(after, capture, bound) == ReservedBelow(before, capture, bound)
  {
    if bound > 0 {
      ReservedDiffersAt(before, after, capture, pk, bound - 1);
    }
  }

  lemma {:induction false} ReservedSame(before: map<nat, Refund>, after: map<nat, Refund>, capture: nat, bound: nat)
    requires forall q :: Weight(before, capture, q) == Weight(after, capture, q)
    ensures ReservedBelow(after, capture, bound) == ReservedBelow(before, capture, bound)
  {
    if bound > 0 {
      ReservedSame(before, after, capture, bound - 1);
    }
  }

  /** A merge commits whenever no third row has the attempt's key: clearing the attempt's key first makes room for
      the survivor, whose save would be refused before. */
  lemma MergeCommitsIff(rows: map<nat, Refund>, attempt: nat, survivor: nat)
    requires attempt in rows && survivor in rows && attempt != survivor
    requires forall p, q :: p in rows && q in rows && p != q && rows[p].paypalId.Some? ==>
      rows[p].paypalId != rows[q].paypalId
    ensures MergeRows(rows, attempt, survivor).Some? <==>
      forall pk :: pk in rows && pk != attempt && pk != survivor && rows[attempt].key.Some? ==>
        rows[pk].key != rows[attempt].key
    ensures rows[attempt].key.Some? ==> !Accepts(rows, survivor, Absorb(rows[survivor], attempt, rows[attempt]))
  {
    assert Absorb(rows[survivor], attempt, rows[attempt]).key == rows[attempt].key;
    var cleared := rows[attempt].(key := None);
    assert Accepts(rows, attempt, cleared);
    var released, taken := rows[attempt := cleared], Absorb(rows[survivor], attempt, rows[attempt]);
    if pk :|
        pk in rows && pk != attempt && pk != survivor
        && rows[attempt].key.Some? && rows[pk].key == rows[attempt].key {
      assert released[pk].key == taken.key;
    } else {
      assert Accepts(released, survivor, taken);
    }
  }

  /** A merge lowers the reserved sum by exactly what the attempt reserved, and touches no other capture's sum. */
  lemma MergeReleasesExactly(rows: map<nat, Refund>, attempt: nat, survivor: nat, capture: nat, bound: nat)
    requires attempt in rows && survivor in rows && attempt != survivor
    requires MergeRows(rows, attempt, survivor).Some?
    requires attempt < bound
    ensures ReservedBelow(MergeRows(rows, attempt, survivor).value, capture, bound)
         == ReservedBelow(rows, capture, bound) - Weight(rows, capture, attempt)
  {
    var after := MergeRows(rows, attempt, survivor).value;
    ReservedDiffersAt(rows, after, capture, attempt, bound);
  }

  /** Flagging an attempt as UNRESOLVED keeps its reservation. */
  lemma FlaggingKeepsReservation(rows: map<nat, Refund>, capture: nat, except: nat, other: nat, bound: nat)
    ensures ReservedBelow(FlagOthers(rows, capture, except), other, bound) == ReservedBelow(rows, other, bound)
  {
    ReservedSame(rows, FlagOthers(rows, capture, except), other, bound);
  }
}
