/**
 What the invariant means to a caller, on every run from an empty refund table:
 PayPal never live-refunds more than was captured, no key is lost or re-bound, and no
 transaction block trips a constraint or misses its row.
 */
module RefundSafety {
  import opened Options
  import opened RefundRows
  import opened RefundProtocol
  import opened RefundInvariant

  // ---------- history that never changes ----------

  /** Captures are fixed, and issued keys and posted requests are never forgotten or altered. */
  ghost predicate Remembers(before: World, after: World) {
    && after.db.captures == before.db.captures
    && before.posted <= after.posted
    && forall k :: k in before.issued ==> k in after.issued && after.issued[k] == before.issued[k]
  }

  lemma StepRemembers(w: World, step: Step)
    requires Inv(w) && Enabled(w, step)
    ensures Remembers(w, Next(w, step))
  {
    hide TableOk, KeysOk, Carried, RowsOk, PayPalOk, HandlesOk, NewsOk, BudgetOk, Enabled;
    match step {
      case Start(c, amount, note, invoice, post) =>
        if StartRefund(w.db, c, amount, note, invoice, StartBody(amount, note, invoice, post)).Done? {
          StartEffect(w, c, amount, note, invoice, post);
          KeyIsFresh(w, w.db.captures[c].order);
        }
      case _ =>
    }
  }

  lemma {:induction false} RunRemembers(w: World, steps: seq<Step>)
    requires Inv(w) && ValidRun(w, steps)
    ensures Remembers(w, Run(w, steps))
    decreases |steps|
  {
    hide Inv, Next, Enabled;
    if steps != [] {
      StepRemembers(w, steps[0]);
      StepKeeps(w, steps[0]);
      RunRemembers(Next(w, steps[0]), steps[1..]);
    }
  }

  /** Objects in memory, replies and webhooks stay around, and what PayPal answered stays answered. */
  ghost predicate Lingers(before: World, after: World) {
    && before.handles <= after.handles && before.messages <= after.messages && before.notices <= after.notices
    && forall k :: k in before.paypal.answers ==>
         k in after.paypal.answers && after.paypal.answers[k] == before.paypal.answers[k]
  }

  lemma StepLingers(w: World, step: Step)
    requires Enabled(w, step)
    ensures Lingers(w, Next(w, step))
  {
    hide StartRefund, SettleRefund, MarkRefundFailed, AdoptRemoteRefund, MergeRefundAttempt, RetryRefund;
  }

  lemma {:induction false} RunLingers(w: World, steps: seq<Step>)
    requires ValidRun(w, steps)
    ensures Lingers(w, Run(w, steps))
    decreases |steps|
  {
    hide Next, Enabled;
    if steps != [] {
      StepLingers(w, steps[0]);
      RunLingers(Next(w, steps[0]), steps[1..]);
    }
  }

  /**
   Nothing has to arrive in order, soon, or once: after any further run each reply, refusal or webhook ever sent can
   still be delivered, an object once loaded can be retried, and reconciliation can still bind it to its refund.
   */
  lemma AnythingMayComeLate(w: World, more: seq<Step>)
    requires ValidRun(w, more)
    ensures forall h, p :: Reply(h, p) in w.messages ==> Enabled(Run(w, more), Settle(h, p))
    ensures forall h :: Refusal(h) in w.messages ==> Enabled(Run(w, more), Fail(h))
    ensures forall n :: n in w.notices ==> Enabled(Run(w, more), Adopt(n))
    ensures forall h :: h in w.handles ==> Enabled(Run(w, more), Retry(h))
    ensures forall h, n ::
      h in w.handles && n in w.notices && n.payload.id.Some? && MadeFor(w.paypal, h.key, n.payload.id.value) ==>
      Enabled(Run(w, more), Bind(h, n))
  {
    RunLingers(w, more);
    hide Next, Run, ValidRun;
  }

  /** The worlds a run can reach from an empty refund table. */
  lemma ReachableOk(captures: map<nat, Capture>, steps: seq<Step>)
    requires ValidRun(Initial(captures), steps)
    ensures Inv(Run(Initial(captures), steps))
    ensures Run(Initial(captures), steps).db.captures == captures
  {
    hide Inv;
    InitialOk(captures);
    RunKeeps(Initial(captures), steps);
    RunRemembers(Initial(captures), steps);
  }

  // ---------- money ----------

  lemma {:induction false} LiveWithinLiabilities(w: World, keys: seq<string>, capture: nat)
    requires Inv(w) && forall k :: k in keys ==> k in w.issued
    ensures LiveRefunded(w.paypal, keys, capture) <= Liabilities(w.paypal, w.issued, keys, capture)
    decreases |keys|
  {
    hide Inv;
    if keys != [] {
      var k := keys[|keys| - 1];
      LiveWithinLiabilities(w, keys[..|keys| - 1], capture);
      AnswersRecorded(w);
      assert k in w.issued;
      assert k in w.paypal.answers && w.paypal.answers[k].Made? ==>
        w.paypal.refunds[w.paypal.answers[k].id].capture == w.issued[k].capture;
    }
  }

  lemma KeyListFacts(w: World)
    requires Inv(w)
    ensures forall k :: k in w.paypal.answers ==> k in w.keys
    ensures forall k :: k in w.keys ==> k in w.issued
    ensures forall i, j :: 0 <= i < j < |w.keys| ==> w.keys[i] != w.keys[j]
    ensures forall c :: c in w.db.captures ==> Liabilities(w.paypal, w.issued, w.keys, c) <= w.db.captures[c].amount
  {
  }

  /**
   On every interleaving, all that PayPal has refunded on a capture and not taken back,
   over every key it ever answered and counting each once, stays within the captured amount.
   */
  lemma NeverOverRefunded(captures: map<nat, Capture>, steps: seq<Step>, capture: nat)
    requires ValidRun(Initial(captures), steps) && capture in captures
    ensures var w := Run(Initial(captures), steps);
      && (forall k :: k in w.paypal.answers ==> k in w.keys)
      && (forall i, j :: 0 <= i < j < |w.keys| ==> w.keys[i] != w.keys[j])
      && LiveRefunded(w.paypal, w.keys, capture) <= captures[capture].amount
  {
    hide Inv;
    var w := Run(Initial(captures), steps);
    ReachableOk(captures, steps);
    KeyListFacts(w);
    LiveWithinLiabilities(w, w.keys, capture);
  }

  /** A key PayPal has not finally refused or cancelled is on a row that still reserves what PayPal holds under it. */
  lemma UnfinishedKeyReserved(captures: map<nat, Capture>, steps: seq<Step>, key: string)
    requires ValidRun(Initial(captures), steps)
    requires key in Run(Initial(captures), steps).issued && !Final(Run(Initial(captures), steps).paypal, key)
    ensures var w := Run(Initial(captures), steps);
      exists pk: nat ::
        && Carries(w.db.rows, pk, key) && w.db.rows[pk].status.Reserves()
        && w.db.rows[pk].capture == w.issued[key].capture
        && w.db.rows[pk].amount >= Liability(w.paypal, w.issued, key)
  {
    hide Inv;
    ReachableOk(captures, steps);
    CarrierReserves(Run(Initial(captures), steps), key);
  }

  lemma CarrierOf(w: World, key: string) returns (pk: nat)
    requires Inv(w) && key in w.issued
    ensures Carries(w.db.rows, pk, key)
  {
    pk :| Carries(w.db.rows, pk, key);
  }

  lemma CarrierReserves(w: World, key: string)
    requires Inv(w) && key in w.issued && !Final(w.paypal, key)
    ensures exists pk: nat ::
      && Carries(w.db.rows, pk, key) && w.db.rows[pk].status.Reserves()
      && w.db.rows[pk].capture == w.issued[key].capture
      && w.db.rows[pk].amount >= Liability(w.paypal, w.issued, key)
  {
    hide TableOk, KeysOk, Carried, RowsOk, PayPalOk, HandlesOk, NewsOk, BudgetOk;
    var pk := CarrierOf(w, key);
    RowFacts(w, pk);
    AnswersRecorded(w);
    assert Carries(w.db.rows, pk, key) && w.db.rows[pk].status.Reserves();
  }

  // ---------- keys and bodies ----------

  /** Each issued key is on exactly one row, with the body it was issued for, and its first attempt is on record. */
  lemma KeyOnOneRow(captures: map<nat, Capture>, steps: seq<Step>, key: string)
    requires ValidRun(Initial(captures), steps) && key in Run(Initial(captures), steps).issued
    ensures var w := Run(Initial(captures), steps);
      var issue := w.issued[key];
      exists pk: nat ::
        && Carries(w.db.rows, pk, key)
        && (forall q :: Carries(w.db.rows, q, key) ==> q == pk)
        && w.db.rows[pk].body == issue.body && w.db.rows[pk].capture == issue.capture
        && (pk == issue.pk || Snapshot(issue.pk, Some(key), issue.body, issue.amount) in w.db.rows[pk].merged)
  {
    hide Inv;
    ReachableOk(captures, steps);
    var w := Run(Initial(captures), steps);
    var pk := CarrierOf(w, key);
    RowFacts(w, pk);
    assert Carries(w.db.rows, pk, key);
  }

  /** All posts under one key, over the whole run, are the same request; it asks for the amount its
      row was started with. */
  lemma PostsIdentical(captures: map<nat, Capture>, steps: seq<Step>, g: Handle, h: Handle)
    requires ValidRun(Initial(captures), steps)
    requires g in Run(Initial(captures), steps).posted && h in Run(Initial(captures), steps).posted && g.key == h.key
    ensures g.key.Some? && g.body.Some? && g.body == h.body && g.capture == h.capture
    ensures g.key.value in Run(Initial(captures), steps).issued
    ensures var issue := Run(Initial(captures), steps).issued[g.key.value];
      g.capture in captures && issue.body == g.body && issue.amount == Asked(captures, g.capture, g.body.value)
  {
    hide Inv;
    ReachableOk(captures, steps);
    PostedIsIssued(Run(Initial(captures), steps), g);
    PostedIsIssued(Run(Initial(captures), steps), h);
  }

  /** What a run did before still holds after it: keys keep their body, and no post is taken back. */
  lemma BodyFixedForEver(captures: map<nat, Capture>, steps: seq<Step>, more: seq<Step>, key: string)
    requires ValidRun(Initial(captures), steps) && ValidRun(Run(Initial(captures), steps), more)
    requires key in Run(Initial(captures), steps).issued
    ensures var w := Run(Initial(captures), steps);
      var later := Run(w, more);
      && key in later.issued && later.issued[key] == w.issued[key] && w.posted <= later.posted
  {
    hide Inv;
    ReachableOk(captures, steps);
    RunRemembers(Run(Initial(captures), steps), more);
  }

  /** A worker's stale object always leads to the one row that carries its key now. */
  lemma StaleHandleFindsRow(captures: map<nat, Capture>, steps: seq<Step>, h: Handle)
    requires ValidRun(Initial(captures), steps) && h in Run(Initial(captures), steps).handles && h.key.Some?
    ensures var w := Run(Initial(captures), steps);
      && Locate(w.db, h).Some? && Carries(w.db.rows, Locate(w.db, h).value, h.key.value)
      && (h.pk !in w.db.rows ==> RetryRefund(w.db, h) == AlreadyMerged(Locate(w.db, h).value))
  {
    hide Inv;
    ReachableOk(captures, steps);
    var w := Run(Initial(captures), steps);
    HandleFacts(w, h);
    if h.pk !in w.db.rows {
      SurvivorExists(w, h);
    }
  }

  // ---------- constraints ----------

  /** A block fails in a way no caller can cause: a unique constraint, or a row that should be there. */
  predicate Trips(w: World, step: Step) {
    match step
    case Start(c, amount, note, invoice, post) =>
      StartRefund(w.db, c, amount, note, invoice, StartBody(amount, note, invoice, post)) == Raised(IntegrityError)
    case Settle(h, p) => SettleRefund(w.db, h, p).Raised?
    case Bind(h, n) => SettleRefund(w.db, h, n.payload).Raised?
    case Fail(h) => MarkRefundFailed(w.db, h).Raised?
    case Adopt(n) => AdoptRemoteRefund(w.db, n.capture, n.payload).Raised?
    case MergeByHand(h, s) => MergeRefundAttempt(w.db, h, s) == Raised(IntegrityError)
    case Retry(h) => RetryRefund(w.db, h) == RetryRaised(DoesNotExist)
    case _ => false
  }

  /** No step of any run trips: settle and adopt never fail, and every save meets the unique constraints. */
  lemma NeverTrips(captures: map<nat, Capture>, steps: seq<Step>, step: Step)
    requires ValidRun(Initial(captures), steps) && Enabled(Run(Initial(captures), steps), step)
    ensures !Trips(Run(Initial(captures), steps), step)
  {
    hide Inv;
    ReachableOk(captures, steps);
    StepNeverTrips(Run(Initial(captures), steps), step);
  }

  lemma StepNeverTrips(w: World, step: Step)
    requires Inv(w) && Enabled(w, step)
    ensures !Trips(w, step)
  {
    hide Inv;
    match step {
      case Start(c, amount, note, invoice, post) => StartKeeps(w, c, amount, note, invoice, post);
      case Settle(h, p) =>
        ReplyIsSettling(w, h, p);
        SettleKeeps(w, h, w.paypal.answers[h.key.value].id, p);
      case Bind(h, n) =>
        BindIsSettling(w, h, n);
        SettleKeeps(w, h, n.payload.id.value, n.payload);
      case Fail(h) => FailKeeps(w, h);
      case Adopt(n) => AdoptKeeps(w, n);
      case MergeByHand(h, s) => MergeByHandKeeps(w, h, s);
      case Retry(h) => RetryKeeps(w, h);
      case _ =>
    }
  }

  // ---------- the code's calls are runs ----------

  /** refund_capture and retry_refund post what the protocol's steps post, or change nothing and raise. */
  lemma CallsAreSteps(w: World, c: nat, amount: Option<nat>, note: string, invoice: string, h: Handle)
    ensures Enabled(w, Start(c, amount, note, invoice, true)) ==>
      TableAfter(w.db, RefundRows.RefundCapture(w.db, c, amount, note, invoice))
        == if amount.Some? && !Sendable(amount.value) then w.db else Next(w, Start(c, amount, note, invoice, true)).db
    ensures Enabled(w, Retry(h)) ==>
      Next(w, Retry(h)).db == w.db && Next(w, Retry(h)).posted
        == w.posted + if RetryRefund(w.db, h).Post? then {RetryRefund(w.db, h).handle} else {}
    ensures forall p :: Enabled(w, Settle(h, p)) ==> PostRefund(w.db, h, Answered(p)) == Next(w, Settle(h, p)).db
    ensures forall issues :: Enabled(w, Fail(h)) ==>
      PostRefund(w.db, h, ApiError(issues)) ==
        if issues * TERMINAL_REFUND_ISSUES != {} then Next(w, Fail(h)).db else w.db
  {
    hide Sendable;
  }
}
