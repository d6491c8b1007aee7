/**
 What each refund operation decides and records, told from the rows themselves: when a start, a retry or
 a merge goes through, and what every column shows afterwards.
 */
module RefundRules {
  import opened Options
  import opened RefundRows
  import opened RefundProtocol
  import opened RefundInvariant
  import opened RefundSafety
  import RequestIds

  // ---------- sums over rows ----------

  /** SUM(amount) over a set of rows. */
  ghost function AmountOf(rows: map<nat, Refund>, pks: set<nat>): nat
    requires pks <= rows.Keys
    decreases |pks|
  {
    if pks == {} then 0
    else
      var pk :| pk in pks;
      rows[pk].amount + AmountOf(rows, pks - {pk})
  }

  lemma {:induction false} AmountWithout(rows: map<nat, Refund>, pks: set<nat>, pk: nat)
    requires pks <= rows.Keys && pk in pks
    ensures AmountOf(rows, pks) == rows[pk].amount + AmountOf(rows, pks - {pk})
    decreases |pks|
  {
    var picked :| picked in pks && AmountOf(rows, pks) == rows[picked].amount + AmountOf(rows, pks - {picked});
    if picked != pk {
      AmountWithout(rows, pks - {picked}, pk);
      AmountWithout(rows, pks - {pk}, picked);
      assert pks - {picked} - {pk} == pks - {pk} - {picked};
    }
  }

  /** The capture's refunds that were made, are in flight, or may have been made. */
  function Holding(rows: map<nat, Refund>, capture: nat): set<nat> {
    set pk | pk in rows && rows[pk].capture == capture
      && rows[pk].status in {Initiated, Unresolved, Completed, Pending}
  }

  function CompletedOn(rows: map<nat, Refund>, capture: nat): set<nat> {
    set pk | pk in rows && rows[pk].capture == capture && rows[pk].status == Completed
  }

  function Below(pks: set<nat>, bound: nat): set<nat> {
    set pk | pk in pks && pk < bound
  }

  lemma BelowStep(pks: set<nat>, bound: nat)
    ensures bound in pks ==> bound in Below(pks, bound + 1) && Below(pks, bound + 1) - {bound} == Below(pks, bound)
    ensures bound !in pks ==> Below(pks, bound + 1) == Below(pks, bound)
  {}

  lemma {:induction false} ReservedSums(rows: map<nat, Refund>, capture: nat, bound: nat)
    ensures ReservedBelow(rows, capture, bound) == AmountOf(rows, Below(Holding(rows, capture), bound))
  {
    if bound > 0 {
      ReservedSums(rows, capture, bound - 1);
      BelowStep(Holding(rows, capture), bound - 1);
      if bound - 1 in Holding(rows, capture) {
        AmountWithout(rows, Below(Holding(rows, capture), bound), bound - 1);
      }
    }
  }

  lemma {:induction false} CompletedSums(rows: map<nat, Refund>, capture: nat, bound: nat)
    ensures CompletedBelow(rows, capture, bound) == AmountOf(rows, Below(CompletedOn(rows, capture), bound))
  {
    if bound > 0 {
      CompletedSums(rows, capture, bound - 1);
      BelowStep(CompletedOn(rows, capture), bound - 1);
      if bound - 1 in CompletedOn(rows, capture) {
        AmountWithout(rows, Below(CompletedOn(rows, capture), bound), bound - 1);
      }
    }
  }

  /** reserved_refund_amount and refunded_amount are those sums. */
  lemma SumsOf(db: Db, capture: nat)
    requires forall pk :: pk in db.rows ==> pk < db.nextPk
    ensures Reserved(db, capture) == AmountOf(db.rows, Holding(db.rows, capture))
    ensures CompletedBelow(db.rows, capture, db.nextPk) == AmountOf(db.rows, CompletedOn(db.rows, capture))
  {
    ReservedSums(db.rows, capture, db.nextPk);
    CompletedSums(db.rows, capture, db.nextPk);
    assert Below(Holding(db.rows, capture), db.nextPk) == Holding(db.rows, capture);
    assert Below(CompletedOn(db.rows, capture), db.nextPk) == CompletedOn(db.rows, capture);
  }

  // ---------- starting a refund ----------

  /** The capture's attempts of unknown outcome. */
  function Undecided(rows: map<nat, Refund>, capture: nat): set<nat> {
    set pk | pk in rows && rows[pk].capture == capture && rows[pk].status in {Initiated, Unresolved}
  }

  function AskedFor(c: Capture, amount: Option<nat>): nat {
    if amount.Some? then amount.value else c.amount
  }

  lemma FirstUndecided(db: Db, capture: nat)
    requires forall pk :: pk in db.rows ==> pk < db.nextPk
    ensures var first, undecided := First(db.rows, UnknownOutcome(capture), db.nextPk), Undecided(db.rows, capture);
      && (first.None? <==> undecided == {})
      && (first.Some? ==> first.value in undecided)
      && (first.Some? ==> forall pk :: pk in undecided ==> first.value <= pk)
  {
    var first, undecided := First(db.rows, UnknownOutcome(capture), db.nextPk), Undecided(db.rows, capture);
    assert forall pk :: pk in db.rows ==> (Matches(UnknownOutcome(capture), pk, db.rows[pk]) <==> pk in undecided);
    if first.None? {
      assert forall pk :: pk !in undecided;
    }
  }

  lemma StartCommits(w: World, c: nat, amount: Option<nat>, note: string, invoice: string, body: Option<Body>)
    requires Inv(w) && c in w.db.captures && First(w.db.rows, UnknownOutcome(c), w.db.nextPk).None?
    requires AskedFor(w.db.captures[c], amount) + Reserved(w.db, c) <= w.db.captures[c].amount
    ensures var pk, key := w.db.nextPk, RequestIds.RefundRequestId(w.db.captures[c].order, w.db.nextPk);
      StartRefund(w.db, c, amount, note, invoice, body) == Done(w.db.(
        rows := w.db.rows[pk :=
          Refund(c, Some(key), None, Initiated, AskedFor(w.db.captures[c], amount), note, invoice, body, [])],
        nextPk := pk + 1), pk)
  {
    var pk, key := w.db.nextPk, RequestIds.RefundRequestId(w.db.captures[c].order, w.db.nextPk);
    KeyIsFresh(w, w.db.captures[c].order);
    hide Inv, RequestIds.RefundRequestId;
    forall other | other in w.db.rows ensures w.db.rows[other].key != Some(key) {
      RowFacts(w, other);
    }
    var row := FreshAttempt(c, AskedFor(w.db.captures[c], amount), note, invoice, body);
    assert Accepts(w.db.rows[pk := row], pk, row.(key := Some(key)));
  }

  /**
   What a start decides, in every world with the invariant: it goes through exactly when the capture has no
   attempt of unknown outcome and the amount fits beside what its other refunds hold, a full fit included.
   */
  lemma StartDecides(w: World, c: nat, amount: Option<nat>, note: string, invoice: string, body: Option<Body>)
    requires Inv(w)
    ensures var outcome := StartRefund(w.db, c, amount, note, invoice, body);
      if c !in w.db.captures then outcome == Raised(CaptureMissing)
      else if Undecided(w.db.rows, c) != {} then
        && outcome.Raised? && outcome.error.UnresolvedAttempt? && outcome.error.pk in Undecided(w.db.rows, c)
        && forall pk :: pk in Undecided(w.db.rows, c) ==> outcome.error.pk <= pk
      else
        var asked := AskedFor(w.db.captures[c], amount);
        if asked + AmountOf(w.db.rows, Holding(w.db.rows, c)) <= w.db.captures[c].amount then
          var key := RequestIds.RefundRequestId(w.db.captures[c].order, w.db.nextPk);
          var row := Refund(c, Some(key), None, Initiated, asked, note, invoice, body, []);
          w.db.nextPk !in w.db.rows && outcome ==
            Done(Db(w.db.captures, w.db.rows[w.db.nextPk := row], w.db.nextPk + 1), w.db.nextPk)
        else outcome == Raised(AmountExceeded)
  {
    forall pk | pk in w.db.rows ensures pk < w.db.nextPk {
      RowFacts(w, pk);
    }
    SumsOf(w.db, c);
    hide Inv, Holding, AmountOf, RequestIds.RefundRequestId;
    FirstUndecided(w.db, c);
    if c in w.db.captures && Undecided(w.db.rows, c) == {}
       && AskedFor(w.db.captures[c], amount) + Reserved(w.db, c) <= w.db.captures[c].amount {
      StartCommits(w, c, amount, note, invoice, body);
    }
  }

  /**
   refund_capture starts a refund exactly when the capture has a PayPal id, the amount can be sent, and a start with
   that body goes through; without a PayPal id it is refused for that, whatever the amount.
   */
  lemma RefundCaptureGuards(db: Db, c: nat, amount: Option<nat>, note: string, invoice: string)
    requires c in db.captures
    ensures db.captures[c].paypalId.None? ==> RefundCapture(db, c, amount, note, invoice) == Raised(NotConfirmed)
    ensures RefundCapture(db, c, amount, note, invoice).Done? <==>
      && db.captures[c].paypalId.Some? && (amount.Some? ==> Sendable(amount.value))
      && StartRefund(db, c, amount, note, invoice, Some(Body(amount, note, invoice))).Done?
    ensures RefundCapture(db, c, amount, note, invoice).Done? ==>
      RefundCapture(db, c, amount, note, invoice)
        == StartRefund(db, c, amount, note, invoice, Some(Body(amount, note, invoice)))
  {
    hide StartRefund, Sendable;
  }

  /** The capture's refunds, if it has any, all failed or were cancelled. */
  ghost predicate NothingLive(rows: map<nat, Refund>, c: nat) {
    forall pk :: pk in rows && rows[pk].capture == c ==> rows[pk].status in {Cancelled, Failed}
  }

  /** On every run: a confirmed capture whose refunds, if any, all failed or were cancelled can be refunded in full. */
  lemma FullRefundAccepted(captures: map<nat, Capture>, steps: seq<Step>, c: nat, note: string, invoice: string)
    requires ValidRun(Initial(captures), steps) && c in captures && captures[c].paypalId.Some?
    requires NothingLive(Run(Initial(captures), steps).db.rows, c)
    ensures var db := Run(Initial(captures), steps).db;
      var outcome := RefundCapture(db, c, None, note, invoice);
      && outcome.Done? && outcome.value in outcome.db.rows
      && var row := outcome.db.rows[outcome.value];
         && row.capture == c && row.amount == captures[c].amount && row.status == Initiated
         && row.body == Some(Body(None, note, invoice))
  {
    hide Inv;
    ReachableOk(captures, steps);
    var w := Run(Initial(captures), steps);
    assert Undecided(w.db.rows, c) == {} && Holding(w.db.rows, c) == {};
    StartDecides(w, c, None, note, invoice, Some(Body(None, note, invoice)));
  }

  /** And a part of it that fits beside the other refunds is accepted too, up to the last unit. */
  lemma PartialRefundAcceptedIff(w: World, c: nat, amount: nat, note: string, invoice: string)
    requires Inv(w) && c in w.db.captures && w.db.captures[c].paypalId.Some? && Sendable(amount)
    ensures RefundCapture(w.db, c, Some(amount), note, invoice).Done? <==>
      && Undecided(w.db.rows, c) == {}
      && amount + AmountOf(w.db.rows, Holding(w.db.rows, c)) <= w.db.captures[c].amount
  {
    hide Inv, Holding, Undecided, AmountOf, Sendable;
    StartDecides(w, c, Some(amount), note, invoice, Some(Body(Some(amount), note, invoice)));
  }

  // ---------- settling ----------

  /** The row shows what the payload says, and keeps the rest. */
  predicate Shows(before: Refund, p: Payload, after: Refund) {
    && after.paypalId == (if p.id.Some? then p.id else before.paypalId)
    && after.status == (if p.status.Some? then p.status.value else before.status)
    && after == before.(paypalId := after.paypalId, status := after.status)
  }

  /** Only this row differs. */
  predicate Elsewhere(before: map<nat, Refund>, after: map<nat, Refund>, pk: nat) {
    after.Keys == before.Keys && forall q :: q in before && q != pk ==> after[q] == before[q]
  }

  /** The survivor took over the attempt's key, body and texts, keeps its own facts, and records the attempt. */
  predicate TookOver(before: map<nat, Refund>, after: map<nat, Refund>, attempt: nat, survivor: nat) {
    && attempt in before && survivor in before && survivor in after
    && after.Keys == before.Keys - {attempt}
    && (forall q :: q in after && q != survivor ==> after[q] == before[q])
    && var a, s := before[attempt], before[survivor];
       after[survivor] == Refund(s.capture, a.key, s.paypalId, s.status, s.amount, a.note, a.invoice, a.body,
                                 s.merged + [Snapshot(attempt, a.key, a.body, a.amount)])
  }

  lemma MergeTakesOver(rows: map<nat, Refund>, attempt: nat, survivor: nat)
    requires attempt in rows && survivor in rows && attempt != survivor && MergeRows(rows, attempt, survivor).Some?
    ensures TookOver(rows, MergeRows(rows, attempt, survivor).value, attempt, survivor)
  {}

  /** Another row of the table has this PayPal id. */
  predicate HasTwin(rows: map<nat, Refund>, pk: nat, id: Option<string>) {
    id.Some? && exists q :: q in rows && q != pk && rows[q].paypalId == id
  }

  /**
   What settling an attempt leaves, wherever it is by now.  In place: the row shows the response, and the refund is
   signalled exactly when the row is COMPLETED.  Another row has the refund: that row takes over, without a signal.
   The attempt was merged before: nothing changes, and the row with its key is returned.
   */
  ghost predicate SettledBy(db: Db, h: Handle, p: Payload, after: Db, pk: nat, signal: bool) {
    && after.captures == db.captures && after.nextPk == db.nextPk && pk in after.rows
    && if h.pk !in db.rows then after == db && db.rows[pk].key == h.key && !signal
       else if HasTwin(db.rows, h.pk, p.id) then
         && pk in db.rows && pk != h.pk && db.rows[pk].paypalId == p.id && !signal
         && TookOver(db.rows, after.rows, h.pk, pk)
       else
         && pk == h.pk && Elsewhere(db.rows, after.rows, pk) && Shows(db.rows[pk], p, after.rows[pk])
         && (signal <==> after.rows[pk].status == Completed)
  }

  lemma SettleLeaves(db: Db, h: Handle, p: Payload)
    requires SettleRefund(db, h, p).Done? && forall pk :: pk in db.rows ==> pk < db.nextPk
    ensures var r := SettleRefund(db, h, p); SettledBy(db, h, p, r.db, r.value.0, r.value.1)
  {
    hide SettledBy;
    if h.pk !in db.rows {
      SettleLeavesGone(db, h, p);
    } else if HasTwin(db.rows, h.pk, p.id) {
      SettleLeavesTwin(db, h, p);
    } else {
      SettleLeavesRow(db, h, p);
    }
  }

  lemma SettleLeavesGone(db: Db, h: Handle, p: Payload)
    requires SettleRefund(db, h, p).Done? && h.pk !in db.rows
    ensures var r := SettleRefund(db, h, p); SettledBy(db, h, p, r.db, r.value.0, r.value.1)
  {
    hide TookOver, Shows, Elsewhere;
  }

  lemma SettleLeavesTwin(db: Db, h: Handle, p: Payload)
    requires SettleRefund(db, h, p).Done? && h.pk in db.rows && HasTwin(db.rows, h.pk, p.id)
    requires forall pk :: pk in db.rows ==> pk < db.nextPk
    ensures var r := SettleRefund(db, h, p); SettledBy(db, h, p, r.db, r.value.0, r.value.1)
  {
    var q :| q in db.rows && q != h.pk && db.rows[q].paypalId == p.id;
    assert Matches(OtherWithPaypalId(p.id.value, h.pk), q, db.rows[q]);
    var adopted := First(db.rows, OtherWithPaypalId(p.id.value, h.pk), db.nextPk);
    MergeTakesOver(db.rows, h.pk, adopted.value);
    hide TookOver, MergeRows, Shows, Elsewhere;
  }

  lemma SettleLeavesRow(db: Db, h: Handle, p: Payload)
    requires SettleRefund(db, h, p).Done? && h.pk in db.rows && !HasTwin(db.rows, h.pk, p.id)
    ensures var r := SettleRefund(db, h, p); SettledBy(db, h, p, r.db, r.value.0, r.value.1)
  {
    assert p.id.Some? ==> First(db.rows, OtherWithPaypalId(p.id.value, h.pk), db.nextPk).None?;
    hide MergeRows, TookOver;
  }

  /** Settling what PayPal replied always goes through, and leaves just that. */
  lemma SettleRecords(w: World, h: Handle, id: string, p: Payload)
    requires Inv(w) && Settling(w, h, id, p)
    ensures var r := SettleRefund(w.db, h, p); r.Done? && SettledBy(w.db, h, p, r.db, r.value.0, r.value.1)
  {
    hide Inv, Settling, SettledBy, SettleRefund;
    SettleKeeps(w, h, id, p);
    forall pk | pk in w.db.rows ensures pk < w.db.nextPk {
      RowFacts(w, pk);
    }
    SettleLeaves(w.db, h, p);
  }

  /** The row fails if its outcome was unknown, and is left alone otherwise. */
  predicate FailedIfUndecided(before: Refund, after: Refund) {
    after == if before.status in {Initiated, Unresolved} then before.(status := Failed) else before
  }

  lemma FailLeaves(db: Db, h: Handle, pk: nat)
    requires h.capture in db.captures && Locate(db, h) == Some(pk)
    ensures var r := MarkRefundFailed(db, h);
      && r.Done? && r.db == db.(rows := r.db.rows)
      && Elsewhere(db.rows, r.db.rows, pk) && FailedIfUndecided(db.rows[pk], r.db.rows[pk])
  {}

  /** A proof that no refund was made fails the row with the attempt's key, unless its outcome is already known. */
  lemma FailRecords(w: World, h: Handle)
    requires Inv(w) && Refusal(h) in w.messages
    ensures var r := MarkRefundFailed(w.db, h);
      && r.Done? && r.db == w.db.(rows := r.db.rows)
      && exists pk: nat ::
        && pk in w.db.rows && w.db.rows[pk].key == h.key
        && Elsewhere(w.db.rows, r.db.rows, pk) && FailedIfUndecided(w.db.rows[pk], r.db.rows[pk])
  {
    hide TableOk, KeysOk, Carried, RowsOk, PayPalOk, BudgetOk, MarkRefundFailed, FailedIfUndecided, Elsewhere;
    assert MessageOk(w.paypal, w.posted, Refusal(h));
    HandleFacts(w, h);
    if h.pk !in w.db.rows {
      SurvivorExists(w, h);
    }
    var pk := Locate(w.db, h).value;
    assert pk in w.db.rows && w.db.rows[pk].key == h.key;
    FailLeaves(w.db, h, pk);
  }

  /** A posted refund fails on one of six issues only; any other error, or none, leaves the attempt unresolved. */
  lemma PostConcludes(db: Db, h: Handle, result: PostResult)
    ensures PostRefund(db, h, result) ==
      match result
      case Answered(p) => TableAfter(db, SettleRefund(db, h, p))
      case NoAnswer => db
      case ApiError(issues) =>
        if "CAPTURE_FULLY_REFUNDED" in issues || "CAPTURED_AMOUNT_FULLY_REFUNDED" in issues
           || "PREVIOUSLY_REFUNDED" in issues || "REFUND_AMOUNT_EXCEEDED" in issues
           || "REFUND_FAILED_BY_PAYMENT_SOURCE" in issues || "TRANSACTION_REFUSED" in issues
        then TableAfter(db, MarkRefundFailed(db, h)) else db
  {
    hide SettleRefund, MarkRefundFailed;
    if result.ApiError? {
      var common := result.issues * TERMINAL_REFUND_ISSUES;
      assert forall issue :: issue in TERMINAL_REFUND_ISSUES ==> (issue in result.issues <==> issue in common);
      if issue :| issue in common {
        assert issue in TERMINAL_REFUND_ISSUES;
      }
    }
  }

  // ---------- adopting ----------

  /** The row a refund gets that no row carries yet: for the reported amount, or else the captured one. */
  predicate NewlyAdopted(row: Refund, capture: nat, captured: nat, p: Payload) {
    row == Refund(capture, None, p.id, if p.status.Some? then p.status.value else Initiated,
                  if p.amount.Some? then p.amount.value else captured, "", "", None, [])
  }

  /** Every INITIATED attempt of the capture becomes UNRESOLVED; the other rows stay. */
  predicate FlaggedOn(before: map<nat, Refund>, after: map<nat, Refund>, capture: nat) {
    forall q :: q in before ==>
      q in after && after[q] == if before[q].capture == capture && before[q].status == Initiated
                                then before[q].(status := Unresolved) else before[q]
  }

  lemma AdoptLeavesNew(db: Db, c: nat, p: Payload)
    requires c in db.captures && p.id.Some? && AdoptRemoteRefund(db, c, p).Done?
    requires forall q :: q in db.rows ==> q < db.nextPk && db.rows[q].paypalId != p.id
    ensures var r := AdoptRemoteRefund(db, c, p);
      && r.value == Some(db.nextPk) && r.db == Db(db.captures, r.db.rows, db.nextPk + 1)
      && r.db.rows.Keys == db.rows.Keys + {db.nextPk}
      && NewlyAdopted(r.db.rows[db.nextPk], c, db.captures[c].amount, p) && FlaggedOn(db.rows, r.db.rows, c)
  {
    assert First(db.rows, WithPaypalId(p.id.value), db.nextPk).None?;
  }

  lemma AdoptLeavesKnown(db: Db, c: nat, p: Payload, q: nat)
    requires c in db.captures && p.id.Some? && AdoptRemoteRefund(db, c, p).Done?
    requires forall pk :: pk in db.rows ==> pk < db.nextPk
    requires q in db.rows && db.rows[q].paypalId == p.id
    ensures var r := AdoptRemoteRefund(db, c, p);
      && r.value.Some? && r.value.value in db.rows && db.rows[r.value.value].paypalId == p.id
      && r.db == db.(rows := r.db.rows) && Elsewhere(db.rows, r.db.rows, r.value.value)
      && Shows(db.rows[r.value.value], p, r.db.rows[r.value.value])
  {
    assert Matches(WithPaypalId(p.id.value), q, db.rows[q]);
  }

  /** What adopting a refund from a webhook leaves: the row that has it shows it, or a new row does. */
  lemma AdoptRecords(w: World, n: Notice)
    requires Inv(w) && n in w.notices
    ensures n.capture in w.db.captures && n.payload.id.Some?
    ensures var r := AdoptRemoteRefund(w.db, n.capture, n.payload);
      && r.Done? && r.value.Some? && r.db.captures == w.db.captures
      && if exists q :: q in w.db.rows && w.db.rows[q].paypalId == n.payload.id then
           && r.value.value in w.db.rows && w.db.rows[r.value.value].paypalId == n.payload.id
           && Elsewhere(w.db.rows, r.db.rows, r.value.value)
           && Shows(w.db.rows[r.value.value], n.payload, r.db.rows[r.value.value])
         else
           && r.value.value == w.db.nextPk && r.db.rows.Keys == w.db.rows.Keys + {w.db.nextPk}
           && NewlyAdopted(r.db.rows[w.db.nextPk], n.capture, w.db.captures[n.capture].amount, n.payload)
           && FlaggedOn(w.db.rows, r.db.rows, n.capture)
  {
    hide Inv, AdoptRemoteRefund, NewlyAdopted, FlaggedOn, Elsewhere, Shows;
    NoticeFacts(w, n);
    AdoptKeeps(w, n);
    forall pk | pk in w.db.rows ensures pk < w.db.nextPk {
      RowFacts(w, pk);
    }
    if q :| q in w.db.rows && w.db.rows[q].paypalId == n.payload.id {
      AdoptLeavesKnown(w.db, n.capture, n.payload, q);
    } else {
      AdoptLeavesNew(w.db, n.capture, n.payload);
    }
  }

  // ---------- merging and retrying by hand ----------

  /** A merge by hand goes through exactly when every check passes, and then the survivor takes over. */
  lemma MergeByHandDecides(db: Db, h: Handle, survivor: nat)
    requires TableOk(db)
    ensures var r := MergeRefundAttempt(db, h, survivor);
      && (r.Done? <==>
            && h.pk != survivor && h.capture in db.captures && h.pk in db.rows && survivor in db.rows
            && db.rows[h.pk].capture == db.rows[survivor].capture
            && db.rows[h.pk].status in {Initiated, Unresolved}
            && db.rows[survivor].paypalId.Some? && db.rows[survivor].key.None?)
      && (r.Done? ==>
            r.value == survivor && r.db == db.(rows := r.db.rows) && TookOver(db.rows, r.db.rows, h.pk, survivor))
  {
    if h.pk in db.rows && survivor in db.rows && h.pk != survivor {
      MergeCommitsIff(db.rows, h.pk, survivor);
      if MergeRows(db.rows, h.pk, survivor).Some? {
        MergeTakesOver(db.rows, h.pk, survivor);
      }
    }
  }

  /** A retry posts exactly a row of unknown outcome with a stored body, on a confirmed capture, and posts that row. */
  lemma RetryPostsIff(db: Db, h: Handle)
    ensures var r := RetryRefund(db, h);
      && (r.Post? <==>
            && h.pk in db.rows && db.rows[h.pk].status in {Initiated, Unresolved} && db.rows[h.pk].body.Some?
            && db.rows[h.pk].capture in db.captures && db.captures[db.rows[h.pk].capture].paypalId.Some?)
      && (r.Post? ==>
            r.handle == Handle(h.pk, db.rows[h.pk].capture, db.rows[h.pk].key, db.rows[h.pk].body))
      && (r.AlreadyMerged? ==> h.pk !in db.rows && r.pk in db.rows && db.rows[r.pk].key == h.key)
  {}

  // ---------- the capture's status ----------

  /** After a sync the capture shows REFUNDED when its completed refunds cover it, PARTIALLY_REFUNDED when some do. */
  lemma SyncShows(db: Db, c: nat)
    requires c in db.captures && forall pk :: pk in db.rows ==> pk < db.nextPk
    ensures var refunded := AmountOf(db.rows, CompletedOn(db.rows, c));
      SyncStatus(db, c) == db.(captures := db.captures[c := db.captures[c].(status :=
        if refunded == 0 then db.captures[c].status
        else if refunded < db.captures[c].amount then "PARTIALLY_REFUNDED" else "REFUNDED")])
  {
    SumsOf(db, c);
    assert db.captures[c := db.captures[c]] == db.captures;
  }

  lemma OnlyCompleted(rows: map<nat, Refund>, c: nat, pk: nat)
    requires pk in rows && CompletedOn(rows, c) == {pk}
    ensures AmountOf(rows, CompletedOn(rows, c)) == rows[pk].amount
  {
    AmountWithout(rows, {pk}, pk);
    assert {pk} - {pk} == {};
  }

  /**
   A refund from call to status.  refund_capture on a confirmed capture with no live refund, answered COMPLETED
   with a new refund id, leaves the row completed under that id and the capture REFUNDED, or PARTIALLY_REFUNDED
   when less than all of it was asked for.
   */
  lemma CompletedRefundShows(w: World, c: nat, amount: Option<nat>, note: string, invoice: string, id: string)
    requires Inv(w) && c in w.db.captures && w.db.captures[c].paypalId.Some?
    requires amount.Some? ==> Sendable(amount.value) && 0 < amount.value <= w.db.captures[c].amount
    requires w.db.captures[c].amount > 0
    requires NothingLive(w.db.rows, c)
    requires forall pk :: pk in w.db.rows ==> w.db.rows[pk].paypalId != Some(id)
    ensures var started := RefundCapture(w.db, c, amount, note, invoice);
      && started.Done? && started.value in started.db.rows
      && var h := HandleOf(started.value, started.db.rows[started.value]);
         var settled := PostRefund(started.db, h, Answered(Payload(Some(id), Some(Completed), None)));
         var synced := SyncStatus(settled, c);
         && started.value in synced.rows && c in synced.captures
         && synced.rows[started.value].status == Completed && synced.rows[started.value].paypalId == Some(id)
         && synced.captures[c].status ==
              if amount.Some? && amount.value < w.db.captures[c].amount then "PARTIALLY_REFUNDED" else "REFUNDED"
  {
    var rows, pk, body := w.db.rows, w.db.nextPk, Some(Body(amount, note, invoice));
    assert Undecided(rows, c) == {} && Holding(rows, c) == {};
    StartDecides(w, c, amount, note, invoice, body);
    forall q | q in rows ensures q < pk && rows[q].key != StartedKey(w, c) {
      RowFacts(w, q);
      KeyIsFresh(w, w.db.captures[c].order);
    }
    hide Inv, Sendable, RequestIds.RefundRequestId, StartRefund, RowOk, PostRefund, SyncStatus, Holding, AmountOf;
    OnlyRefundShows(RefundCapture(w.db, c, amount, note, invoice).db, c, pk, id);
  }

  function StartedKey(w: World, c: nat): Option<string>
    requires c in w.db.captures
  {
    Some(RequestIds.RefundRequestId(w.db.captures[c].order, w.db.nextPk))
  }

  lemma OnlyRefundShows(db: Db, c: nat, pk: nat, id: string)
    requires c in db.captures && pk in db.rows && db.rows[pk].capture == c && db.rows[pk].amount > 0
    requires forall q :: q in db.rows ==> q < db.nextPk && db.rows[q].paypalId != Some(id)
    requires forall q :: q in db.rows && q != pk && db.rows[pk].key.Some? ==> db.rows[q].key != db.rows[pk].key
    requires NothingLive(db.rows - {pk}, c)
    ensures var answer := Answered(Payload(Some(id), Some(Completed), None));
      var synced := SyncStatus(PostRefund(db, HandleOf(pk, db.rows[pk]), answer), c);
      && pk in synced.rows && c in synced.captures
      && synced.rows[pk].status == Completed && synced.rows[pk].paypalId == Some(id)
      && synced.captures[c].status ==
           if db.rows[pk].amount < db.captures[c].amount then "PARTIALLY_REFUNDED" else "REFUNDED"
  {
    SettlesAlone(db, pk, id);
    var settled := db.(rows := db.rows[pk := db.rows[pk].(paypalId := Some(id), status := Completed)]);
    forall q | q in settled.rows && q != pk && settled.rows[q].capture == c
      ensures settled.rows[q].status in {Cancelled, Failed}
    {
      assert q in db.rows - {pk};
    }
    assert CompletedOn(settled.rows, c) == {pk};
    hide PostRefund, NothingLive;
    OnlyCompleted(settled.rows, c, pk);
    SyncShows(settled, c);
    hide AmountOf, SyncStatus, CompletedOn;
  }

  lemma SettlesAlone(db: Db, pk: nat, id: string)
    requires pk in db.rows && db.rows[pk].capture in db.captures
    requires forall q :: q in db.rows ==> q < db.nextPk && db.rows[q].paypalId != Some(id)
    requires forall q :: q in db.rows && q != pk && db.rows[pk].key.Some? ==> db.rows[q].key != db.rows[pk].key
    ensures PostRefund(db, HandleOf(pk, db.rows[pk]), Answered(Payload(Some(id), Some(Completed), None)))
         == db.(rows := db.rows[pk := db.rows[pk].(paypalId := Some(id), status := Completed)])
  {
    assert First(db.rows, OtherWithPaypalId(id, pk), db.nextPk).None?;
  }

  // ---------- texts ----------

  /** A row that can be retried has the texts of the body it would post. */
  ghost predicate TextsMatch(rows: map<nat, Refund>) {
    forall pk :: pk in rows && rows[pk].body.Some? ==>
      rows[pk].note == rows[pk].body.value.note && rows[pk].invoice == rows[pk].body.value.invoice
  }

  lemma StepKeepsTexts(w: World, step: Step)
    requires Inv(w) && Enabled(w, step) && TextsMatch(w.db.rows)
    ensures TextsMatch(Next(w, step).db.rows)
  {
    hide Inv, SettleRefund, AdoptRemoteRefund, MergeRows, TookOver;
    match step {
      case Start(c, amount, note, invoice, post) =>
        if StartRefund(w.db, c, amount, note, invoice, StartBody(amount, note, invoice, post)).Done? {
          StartEffect(w, c, amount, note, invoice, post);
          hide StartRefund, AfterStart;
        }
      case Settle(h, p) =>
        if SettleRefund(w.db, h, p).Done? {
          SettleKeepsTexts(w, h, p);
        }
      case Bind(h, n) =>
        if SettleRefund(w.db, h, n.payload).Done? {
          SettleKeepsTexts(w, h, n.payload);
        }
      case Adopt(n) =>
        AdoptingKeepsTexts(w, n);
      case MergeByHand(h, s) =>
        if MergeRefundAttempt(w.db, h, s).Done? {
          MergeTakesOver(w.db.rows, h.pk, s);
          TakingOverKeepsTexts(w.db.rows, MergeRows(w.db.rows, h.pk, s).value, h.pk, s);
        }
      case _ =>
    }
  }

  lemma SettleKeepsTexts(w: World, h: Handle, p: Payload)
    requires Inv(w) && SettleRefund(w.db, h, p).Done? && TextsMatch(w.db.rows)
    ensures TextsMatch(SettleRefund(w.db, h, p).db.rows)
  {
    forall pk | pk in w.db.rows ensures pk < w.db.nextPk {
      RowFacts(w, pk);
    }
    hide Inv, SettleRefund, TookOver, Shows, Elsewhere, TextsMatch;
    SettleLeaves(w.db, h, p);
    var r := SettleRefund(w.db, h, p);
    if h.pk in w.db.rows {
      if HasTwin(w.db.rows, h.pk, p.id) {
        TakingOverKeepsTexts(w.db.rows, r.db.rows, h.pk, r.value.0);
      } else {
        ShowingKeepsTexts(w.db.rows, r.db.rows, h.pk, p);
      }
    }
  }

  lemma TakingOverKeepsTexts(before: map<nat, Refund>, after: map<nat, Refund>, attempt: nat, survivor: nat)
    requires TextsMatch(before) && TookOver(before, after, attempt, survivor)
    ensures TextsMatch(after)
  {}

  lemma ShowingKeepsTexts(before: map<nat, Refund>, after: map<nat, Refund>, pk: nat, p: Payload)
    requires TextsMatch(before) && Elsewhere(before, after, pk) && pk in before && Shows(before[pk], p, after[pk])
    ensures TextsMatch(after)
  {}

  lemma AdoptingKeepsTexts(w: World, n: Notice)
    requires Inv(w) && n in w.notices && TextsMatch(w.db.rows)
    ensures AdoptRemoteRefund(w.db, n.capture, n.payload).Done?
    ensures TextsMatch(AdoptRemoteRefund(w.db, n.capture, n.payload).db.rows)
  {
    hide Inv, AdoptRemoteRefund, Shows, Elsewhere;
    AdoptRecords(w, n);
    var r := AdoptRemoteRefund(w.db, n.capture, n.payload);
    if exists q :: q in w.db.rows && w.db.rows[q].paypalId == n.payload.id {
      ShowingKeepsTexts(w.db.rows, r.db.rows, r.value.value, n.payload);
    }
  }

  lemma {:induction false} RunKeepsTexts(w: World, steps: seq<Step>)
    requires Inv(w) && ValidRun(w, steps) && TextsMatch(w.db.rows)
    ensures TextsMatch(Run(w, steps).db.rows)
    decreases |steps|
  {
    hide Inv, Next, Enabled, TextsMatch;
    if steps != [] {
      StepKeeps(w, steps[0]);
      StepKeepsTexts(w, steps[0]);
      RunKeepsTexts(Next(w, steps[0]), steps[1..]);
    }
  }

  /** On every run each row that can be retried shows the note and invoice of the request it would post. */
  lemma RowsShowBodyTexts(captures: map<nat, Capture>, steps: seq<Step>)
    requires ValidRun(Initial(captures), steps)
    ensures TextsMatch(Run(Initial(captures), steps).db.rows)
  {
    InitialOk(captures);
    RunKeepsTexts(Initial(captures), steps);
  }
}
