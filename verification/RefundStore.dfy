/**
 The refund table as the mutable database it is: rows are saved, moved and deleted one
 statement at a time inside a transaction.  Each method is proved to leave exactly the
 table its block's function in RefundRows prescribes, or to roll back to the old one.
 */
module RefundStore {
  import opened Options
  import opened RefundRows
  import RequestIds

  class Store {
    var captures: map<nat, Capture>
    var rows: map<nat, Refund>
    var nextPk: nat

    constructor (captures: map<nat, Capture>)
      ensures State() == Db(captures, map[], 0)
    {
      this.captures := captures;
      this.rows := map[];
      this.nextPk := 0;
    }

    function State(): Db
      reads this
    {
      Db(captures, rows, nextPk)
    }

    /** The table after a block: its new state when it committed, the old one when it raised. */
    ghost static predicate Committed<T>(before: Db, outcome: Outcome<T>, after: Db, r: Result<T, Error>) {
      match outcome
      case Done(db, value) => after == db && r == Ok(value)
      case Raised(error) => after == before && r == Err(error)
    }

    /** One UPDATE of one row; refused when a unique constraint would be violated. */
    method Save(pk: nat, row: Refund) returns (ok: bool)
      modifies this`rows
      ensures ok == Accepts(old(rows), pk, row)
      ensures rows == if ok then old(rows)[pk := row] else old(rows)
    {
      ok := Accepts(rows, pk, row);
      if ok {
        rows := rows[pk := row];
      }
    }

    method Start(capture: nat, amount: Option<nat>, note: string, invoice: string, body: Option<Body>)
      returns (r: Result<nat, Error>)
      modifies this
      ensures Committed(old(State()), StartRefund(old(State()), capture, amount, note, invoice, body), State(), r)
    {
      if capture !in captures {
        return Err(CaptureMissing);
      }
      var pending := First(rows, UnknownOutcome(capture), nextPk);
      if pending.Some? {
        return Err(UnresolvedAttempt(pending.value));
      }
      var requested := if amount.Some? then amount.value else captures[capture].amount;
      if requested > Refundable(State(), capture) {
        return Err(AmountExceeded);
      }
      var savepoint, pk := State(), nextPk;
      var row := FreshAttempt(capture, requested, note, invoice, body);
      rows, nextPk := rows[pk := row], pk + 1;
      row := row.(key := Some(RequestIds.RefundRequestId(captures[capture].order, pk)));
      var saved := Save(pk, row);
      if !saved {
        rows, nextPk := savepoint.rows, savepoint.nextPk;
        return Err(IntegrityError);
      }
      assert rows == savepoint.rows[pk := row];
      return Ok(pk);
    }

    method Merge(attempt: nat, survivor: nat) returns (ok: bool)
      requires attempt in rows && survivor in rows && attempt != survivor
      modifies this`rows
      ensures ok == MergeRows(old(rows), attempt, survivor).Some?
      ensures rows == if ok then MergeRows(old(rows), attempt, survivor).value else old(rows)
    {
      var savepoint := rows;
      var a, s := rows[attempt], rows[survivor];
      ok := Save(attempt, a.(key := None));
      if ok {
        ok := Save(survivor, Absorb(s, attempt, a));
        if ok {
          rows := rows - {attempt};
        } else {
          rows := savepoint;
        }
      }
    }

    method Settle(h: Handle, p: Payload) returns (r: Result<(nat, bool), Error>)
      modifies this
      ensures Committed(old(State()), SettleRefund(old(State()), h, p), State(), r)
    {
      if h.capture !in captures {
        return Err(DoesNotExist);
      }
      if h.pk !in rows {
        var survivor := First(rows, WithKey(h.key), nextPk);
        if survivor.None? {
          return Err(DoesNotExist);
        }
        return Ok((survivor.value, false));
      }
      var adopted := None;
      if p.id.Some? {
        adopted := First(rows, OtherWithPaypalId(p.id.value, h.pk), nextPk);
      }
      if adopted.Some? {
        var merged := Merge(h.pk, adopted.value);
        return if merged then Ok((adopted.value, false)) else Err(IntegrityError);
      }
      var row := UpdateFromPayload(rows[h.pk], p);
      var saved := Save(h.pk, row);
      return if saved then Ok((h.pk, row.status.Completed?)) else Err(IntegrityError);
    }

    method MarkFailed(h: Handle) returns (r: Result<Option<nat>, Error>)
      modifies this`rows
      ensures Committed(old(State()), MarkRefundFailed(old(State()), h), State(), r)
    {
      if h.capture !in captures {
        return Err(DoesNotExist);
      }
      var current := if h.pk in rows then Some(h.pk) else None;
      if current.None? {
        current := First(rows, WithKey(h.key), nextPk);
      }
      if current.None? || !rows[current.value].status.OutcomeUnknown() {
        return Ok(None);
      }
      rows := rows[current.value := rows[current.value].(status := Failed)];
      return Ok(current);
    }

    method Adopt(capture: nat, p: Payload) returns (r: Result<Option<nat>, Error>)
      modifies this
      ensures Committed(old(State()), AdoptRemoteRefund(old(State()), capture, p), State(), r)
    {
      if p.id.None? {
        return Ok(None);
      }
      if capture !in captures {
        return Err(DoesNotExist);
      }
      var known := First(rows, WithPaypalId(p.id.value), nextPk);
      if known.Some? {
        var saved := Save(known.value, UpdateFromPayload(rows[known.value], p));
        return if saved then Ok(known) else Err(IntegrityError);
      }
      var savepoint, pk := rows, nextPk;
      var row := AdoptedInsert(State(), capture, p);
      var ok := Save(pk, row);
      if ok {
        ok := Save(pk, UpdateFromPayload(row, p));
      }
      if !ok {
        rows := savepoint;
        return Err(IntegrityError);
      }
      assert rows == savepoint[pk := UpdateFromPayload(row, p)];
      nextPk := pk + 1;
      rows := FlagOthers(rows, capture, pk);
      return Ok(Some(pk));
    }

    method MergeAttempt(attempt: Handle, survivor: nat) returns (r: Result<nat, Error>)
      modifies this`rows
      ensures Committed(old(State()), MergeRefundAttempt(old(State()), attempt, survivor), State(), r)
    {
      if attempt.pk == survivor {
        return Err(SelfMerge);
      }
      if attempt.capture !in captures || attempt.pk !in rows || survivor !in rows {
        return Err(DoesNotExist);
      }
      var a, s := rows[attempt.pk], rows[survivor];
      if a.capture != s.capture {
        return Err(OtherCapture);
      }
      if !a.status.OutcomeUnknown() {
        return Err(NotUnresolved);
      }
      if s.paypalId.None? {
        return Err(SurvivorUnconfirmed);
      }
      if s.key.Some? {
        return Err(SurvivorTaken);
      }
      var merged := Merge(attempt.pk, survivor);
      return if merged then Ok(survivor) else Err(IntegrityError);
    }

    /** sync_refund_status: add up the completed refunds, save the status only if it changes. */
    method SyncRefundStatus(capture: nat)
      modifies this`captures
      ensures State() == SyncStatus(old(State()), capture)
    {
      var refunded := 0;
      for pk := 0 to nextPk
        invariant refunded == CompletedBelow(rows, capture, pk)
      {
        if pk in rows && rows[pk].capture == capture && rows[pk].status.Completed? {
          refunded := refunded + rows[pk].amount;
        }
      }
      if refunded == 0 || capture !in captures {
        return;
      }
      var row := captures[capture];
      var status := if refunded >= row.amount then "REFUNDED" else "PARTIALLY_REFUNDED";
      if status != row.status {
        captures := captures[capture := row.(status := status)];
      }
    }

    /** refund_capture up to the request: no attempt is stored for a capture PayPal never confirmed. */
    method RefundCapture(capture: nat, amount: Option<nat>, note: string, invoice: string)
      returns (r: Result<nat, Error>)
      modifies this
      ensures Committed(old(State()), RefundRows.RefundCapture(old(State()), capture, amount, note, invoice),
        State(), r)
    {
      if capture in captures && captures[capture].paypalId.None? {
        return Err(NotConfirmed);
      }
      if amount.Some? && !Sendable(amount.value) {
        return Err(AmountUnsendable);
      }
      r := Start(capture, amount, note, invoice, Some(Body(amount, note, invoice)));
    }

    /** retry_refund up to the request. */
    method Retry(h: Handle) returns (r: Retry)
      ensures r == RetryRefund(State(), h)
    {
      if h.pk !in rows {
        var survivor := First(rows, WithKey(h.key), nextPk);
        return if survivor.Some? then AlreadyMerged(survivor.value) else RetryRaised(DoesNotExist);
      }
      var row := rows[h.pk];
      if !row.status.OutcomeUnknown() {
        return RetryRaised(NotUnresolved);
      }
      if row.body.None? {
        return RetryRaised(NoSentBody);
      }
      if row.capture !in captures || captures[row.capture].paypalId.None? {
        return RetryRaised(NotConfirmed);
      }
      return Post(HandleOf(h.pk, row));
    }

    /** _post_refund once the request is answered, or is not. */
    method Conclude(h: Handle, result: PostResult)
      modifies this
      ensures State() == PostRefund(old(State()), h, result)
    {
      match result
      case Answered(p) => var settled := Settle(h, p);
      case ApiError(issues) =>
        if issues * TERMINAL_REFUND_ISSUES != {} {
          var failed := MarkFailed(h);
        }
      case NoAnswer =>
    }
  }
}
