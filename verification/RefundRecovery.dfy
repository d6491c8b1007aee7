/**
 The way out of an unknown outcome: retrying an attempt that has a stored body ends it, whatever PayPal
 answered or answers, and a capture can be freed for new refunds exactly when each of its rows of
 unknown outcome has a stored body or is known by its PayPal id.
 */
module RefundRecovery {
  import opened Options
  import opened RefundRows
  import opened RefundProtocol
  import opened RefundInvariant
  import opened RefundSafety
  import opened RefundCounting
  import RequestIds

  /** A row whose outcome is unknown; start_refund refuses while its capture has one. */
  predicate Pending(rows: map<nat, Refund>, pk: nat) {
    pk in rows && rows[pk].status.OutcomeUnknown()
  }

  /** retry_refund has a body to send, or PayPal has named the refund. */
  predicate Recoverable(row: Refund) {
    row.body.Some? || row.paypalId.Some?
  }

  /** The key is on a row, and on no row of unknown outcome. */
  ghost predicate Concluded(rows: map<nat, Refund>, key: string) {
    && (exists pk :: Carries(rows, pk, key))
    && forall pk :: Carries(rows, pk, key) ==> !rows[pk].status.OutcomeUnknown()
  }

  /** The steps of a worker that retries, and of PayPal replying to it; no webhook, no hand and no reconciliation. */
  predicate OfRetrying(step: Step) {
    step.Load? || step.Retry? || step.Respond? || step.RespondRefusal? || step.Settle? || step.Fail?
  }

  /** Retrying can end the key's attempt from here. */
  ghost predicate RetryingConcludes(w: World, key: string) {
    exists more ::
      ValidRun(w, more) && (forall s :: s in more ==> OfRetrying(s)) && Concluded(Run(w, more).db.rows, key)
  }

  // ---------- runs, one after the other ----------

  lemma {:induction false} Joined(w: World, a: seq<Step>, b: seq<Step>)
    requires ValidRun(w, a) && ValidRun(Run(w, a), b)
    ensures ValidRun(w, a + b) && Run(w, a + b) == Run(Run(w, a), b)
    decreases |a|
  {
    hide Enabled, Next;
    if a == [] {
      assert a + b == b;
    } else {
      assert (a + b)[1..] == a[1..] + b;
      Joined(Next(w, a[0]), a[1..], b);
    }
  }

  lemma TwoSteps(w: World, a: Step, b: Step)
    requires Enabled(w, a) && Enabled(Next(w, a), b)
    ensures ValidRun(w, [a, b]) && Run(w, [a, b]) == Next(Next(w, a), b)
  {
    hide Enabled, Next;
    assert [a, b][1..] == [b] && [b][1..] == [];
    assert ValidRun(Next(w, a), [b]) && Run(Next(w, a), [b]) == Next(Next(w, a), b);
  }

  /** Only what was posted had a body, and only confirmed captures are posted to. */
  ghost predicate BodiesSendable(w: World) {
    forall k :: k in w.issued && w.issued[k].body.Some? ==>
      w.issued[k].capture in w.db.captures && w.db.captures[w.issued[k].capture].paypalId.Some?
  }

  lemma StepKeepsSendable(w: World, step: Step)
    requires Inv(w) && Enabled(w, step) && BodiesSendable(w)
    ensures BodiesSendable(Next(w, step))
  {
    hide Inv;
    match step {
      case Start(c, amount, note, invoice, post) =>
        if StartRefund(w.db, c, amount, note, invoice, StartBody(amount, note, invoice, post)).Done? {
          StartEffect(w, c, amount, note, invoice, post);
          hide StartRefund, AfterStart;
        }
      case _ => StepRemembers(w, step);
    }
  }

  lemma {:induction false} RunKeepsSendable(w: World, steps: seq<Step>)
    requires Inv(w) && ValidRun(w, steps) && BodiesSendable(w)
    ensures BodiesSendable(Run(w, steps))
    decreases |steps|
  {
    hide Inv, Next, Enabled, BodiesSendable;
    if steps != [] {
      StepKeeps(w, steps[0]);
      StepKeepsSendable(w, steps[0]);
      RunKeepsSendable(Next(w, steps[0]), steps[1..]);
    }
  }

  // ---------- one round of retrying ----------

  /** The row is settled for good, and every row still of unknown outcome is as it was. */
  ghost predicate Frees(before: map<nat, Refund>, after: map<nat, Refund>, pk: nat) {
    forall q :: Pending(after, q) ==> q != pk && q in before && after[q] == before[q]
  }

  /** The row's attempt is posted and can be retried. */
  ghost predicate Posted(w: World, pk: nat) {
    && Pending(w.db.rows, pk) && w.db.rows[pk].key.Some? && w.db.rows[pk].body.Some?
    && HandleOf(pk, w.db.rows[pk]) in w.posted
  }

  function PostedAgain(w: World, h: Handle): World {
    w.(handles := w.handles + {h}, posted := w.posted + {h})
  }

  lemma Repost(w: World, pk: nat)
    requires Inv(w) && BodiesSendable(w) && Pending(w.db.rows, pk) && w.db.rows[pk].body.Some?
    ensures var h := HandleOf(pk, w.db.rows[pk]);
      && ValidRun(w, [Load(pk), Retry(h)]) && Run(w, [Load(pk), Retry(h)]) == PostedAgain(w, h)
      && Inv(PostedAgain(w, h)) && Posted(PostedAgain(w, h), pk)
  {
    hide TableOk, KeysOk, Carried, RowsOk, PayPalOk, HandlesOk, NewsOk, BudgetOk;
    var h := HandleOf(pk, w.db.rows[pk]);
    RowFacts(w, pk);
    LoadKeeps(w, pk);
    var loaded := Next(w, Load(pk));
    RetryKeeps(loaded, h);
    assert w.issued[h.key.value].capture == h.capture && w.issued[h.key.value].body == h.body;
    assert RetryRefund(loaded.db, h) == Post(h);
    assert Next(loaded, Retry(h)) == PostedAgain(w, h) by {
      assert w.handles + {h} + {h} == w.handles + {h};
    }
    TwoSteps(w, Load(pk), Retry(h));
  }

  /** All that PayPal can say of a refund. */
  function FullNews(paypal: PayPal, id: string): Payload
    requires id in paypal.refunds
  {
    Payload(Some(id), Some(paypal.refunds[id].status), Some(paypal.refunds[id].amount))
  }

  lemma RefundKnown(w: World, id: string)
    requires Inv(w) && id in w.paypal.refunds
    ensures !w.paypal.refunds[id].status.OutcomeUnknown() && w.paypal.refunds[id].capture in w.db.captures
  {}

  /** PayPal's refusal, delivered. */
  lemma RefusalConcludes(w: World, pk: nat) returns (steps: seq<Step>)
    requires Inv(w) && Posted(w, pk)
    requires w.db.rows[pk].key.value in w.paypal.answers && w.paypal.answers[w.db.rows[pk].key.value].Refused?
    ensures ValidRun(w, steps) && (forall s :: s in steps ==> OfRetrying(s))
    ensures Frees(w.db.rows, Run(w, steps).db.rows, pk)
  {
    hide Inv;
    var h := HandleOf(pk, w.db.rows[pk]);
    RowFacts(w, pk);
    steps := [RespondRefusal(h), Fail(h)];
    TwoSteps(w, RespondRefusal(h), Fail(h));
  }

  /** PayPal's reply, delivered: the row is settled in place, or merged into the row that has the refund's id. */
  lemma ReplySettles(w: World, pk: nat, id: string) returns (steps: seq<Step>)
    requires Inv(w) && Posted(w, pk) && MadeFor(w.paypal, w.db.rows[pk].key, id)
    ensures ValidRun(w, steps) && (forall s :: s in steps ==> OfRetrying(s))
    ensures var h, after := HandleOf(pk, w.db.rows[pk]), Run(w, steps);
      && id in w.paypal.refunds
      && SettleRefund(w.db, h, FullNews(w.paypal, id)).Done?
      && after == w.(db := SettleRefund(w.db, h, FullNews(w.paypal, id)).db, messages := after.messages)
  {
    hide TableOk, KeysOk, Carried, RowsOk, PayPalOk, HandlesOk, NewsOk, BudgetOk;
    var h := HandleOf(pk, w.db.rows[pk]);
    AnswerFacts(w, h.key.value, id);
    RefundKnown(w, id);
    var p := FullNews(w.paypal, id);
    var told := Next(w, Respond(h, p));
    NewsKeeps(w, Respond(h, p));
    ReplyIsSettling(told, h, p);
    SettleKeeps(told, h, id, p);
    steps := [Respond(h, p), Settle(h, p)];
    hide SettleRefund;
    TwoSteps(w, Respond(h, p), Settle(h, p));
  }

  /** No other row has the refund's id: the reply settles the row itself. */
  lemma AloneSettles(w: World, pk: nat, id: string)
    requires Inv(w) && pk in w.db.rows && id in w.paypal.refunds
    requires First(w.db.rows, OtherWithPaypalId(id, pk), w.db.nextPk).None?
    requires SettleRefund(w.db, HandleOf(pk, w.db.rows[pk]), FullNews(w.paypal, id)).Done?
    ensures Frees(w.db.rows, SettleRefund(w.db, HandleOf(pk, w.db.rows[pk]), FullNews(w.paypal, id)).db.rows, pk)
  {
    RefundKnown(w, id);
    hide Inv;
  }

  /** Another row has it: that row takes over, and is the only one that changes. */
  lemma TakenOver(w: World, pk: nat, id: string) returns (s: nat)
    requires Inv(w) && pk in w.db.rows && id in w.paypal.refunds && MadeFor(w.paypal, w.db.rows[pk].key, id)
    requires First(w.db.rows, OtherWithPaypalId(id, pk), w.db.nextPk).Some?
    requires SettleRefund(w.db, HandleOf(pk, w.db.rows[pk]), FullNews(w.paypal, id)).Done?
    ensures var after := SettleRefund(w.db, HandleOf(pk, w.db.rows[pk]), FullNews(w.paypal, id)).db.rows;
      && s in w.db.rows && s != pk && after == w.db.rows[s := Absorb(w.db.rows[s], pk, w.db.rows[pk])] - {pk}
      && w.db.rows[s].paypalId == Some(id)
  {
    hide Inv;
    s := First(w.db.rows, OtherWithPaypalId(id, pk), w.db.nextPk).value;
    assert MergeRows(w.db.rows, pk, s).value == w.db.rows[s := Absorb(w.db.rows[s], pk, w.db.rows[pk])] - {pk};
  }

  /** A second round, after a merge: now the row that is retried has the refund's id. */
  lemma OwnReplyConcludes(w: World, pk: nat, id: string) returns (steps: seq<Step>)
    requires Inv(w) && Posted(w, pk) && MadeFor(w.paypal, w.db.rows[pk].key, id) && w.db.rows[pk].paypalId == Some(id)
    ensures ValidRun(w, steps) && (forall s :: s in steps ==> OfRetrying(s))
    ensures Frees(w.db.rows, Run(w, steps).db.rows, pk)
  {
    hide Inv, SettleRefund;
    steps := ReplySettles(w, pk, id);
    RowFacts(w, pk);
    AloneSettles(w, pk, id);
  }

  /** From a posted attempt that PayPal has answered, to a known outcome. */
  lemma AnswerConcludes(w: World, pk: nat) returns (steps: seq<Step>)
    requires Inv(w) && BodiesSendable(w) && Posted(w, pk) && w.db.rows[pk].key.value in w.paypal.answers
    ensures ValidRun(w, steps) && (forall s :: s in steps ==> OfRetrying(s))
    ensures Frees(w.db.rows, Run(w, steps).db.rows, pk)
  {
    hide Inv, SettleRefund, Frees, BodiesSendable, Enabled, Next;
    var key := w.db.rows[pk].key;
    if w.paypal.answers[key.value].Refused? {
      steps := RefusalConcludes(w, pk);
      return;
    }
    var id := w.paypal.answers[key.value].id;
    steps := ReplySettles(w, pk, id);
    if First(w.db.rows, OtherWithPaypalId(id, pk), w.db.nextPk).None? {
      AloneSettles(w, pk, id);
    } else {
      var s := TakenOver(w, pk, id);
      var merged := Run(w, steps);
      RunKeeps(w, steps);
      RunKeepsSendable(w, steps);
      var rest := SurvivorConcludes(w, merged, pk, s, id);
      Joined(w, steps, rest);
      steps := steps + rest;
    }
  }

  lemma SurvivorConcludes(w: World, merged: World, pk: nat, s: nat, id: string) returns (steps: seq<Step>)
    requires Inv(merged) && BodiesSendable(merged) && Posted(w, pk) && s in w.db.rows && s != pk
    requires merged.db.rows == w.db.rows[s := Absorb(w.db.rows[s], pk, w.db.rows[pk])] - {pk}
    requires w.db.rows[s].paypalId == Some(id) && merged.paypal == w.paypal && MadeFor(w.paypal, w.db.rows[pk].key, id)
    ensures ValidRun(merged, steps) && (forall step :: step in steps ==> OfRetrying(step))
    ensures Frees(w.db.rows, Run(merged, steps).db.rows, pk)
  {
    hide Inv, BodiesSendable, Enabled, Next;
    if !Pending(merged.db.rows, s) {
      return [];
    }
    var h := HandleOf(s, merged.db.rows[s]);
    Repost(merged, s);
    var again := PostedAgain(merged, h);
    var rest := OwnReplyConcludes(again, s, id);
    Joined(merged, [Load(s), Retry(h)], rest);
    steps := [Load(s), Retry(h)] + rest;
  }

  /** Freeing the row that carries the key leaves the key concluded. */
  lemma FreedKeyConcluded(w: World, after: World, pk: nat, key: string)
    requires Inv(w) && Inv(after) && Carries(w.db.rows, pk, key) && key in after.issued
    requires Frees(w.db.rows, after.db.rows, pk)
    ensures Concluded(after.db.rows, key)
  {
    hide Inv;
    var carrier := CarrierOf(after, key);
    RowFacts(w, pk);
    forall q | Carries(after.db.rows, q, key) ensures !after.db.rows[q].status.OutcomeUnknown() {
      if Pending(after.db.rows, q) {
        assert false;
      }
    }
  }

  lemma PostedConcludes(w: World, pk: nat)
    requires Inv(w) && BodiesSendable(w) && Posted(w, pk) && w.db.rows[pk].key.value in w.paypal.answers
    ensures RetryingConcludes(w, w.db.rows[pk].key.value)
  {
    hide Inv, BodiesSendable, Frees, Concluded, Enabled, Next, OfRetrying;
    var key := w.db.rows[pk].key.value;
    var steps := AnswerConcludes(w, pk);
    RunKeeps(w, steps);
    RunRemembers(w, steps);
    RowFacts(w, pk);
    FreedKeyConcluded(w, Run(w, steps), pk, key);
  }

  /** What PayPal may do with a post it has not answered yet. */
  predicate Answers(w: World, h: Handle, step: Step) {
    (step == Refuse(h) || (step.Create? && step.handle == h)) && Enabled(w, step)
  }

  lemma AnsweredConcludes(w: World, pk: nat, step: Step)
    requires Inv(w) && BodiesSendable(w) && Posted(w, pk) && Answers(w, HandleOf(pk, w.db.rows[pk]), step)
    ensures RetryingConcludes(Next(w, step), w.db.rows[pk].key.value)
  {
    hide Inv, BodiesSendable, RetryingConcludes;
    StepKeeps(w, step);
    StepKeepsSendable(w, step);
    PostedConcludes(Next(w, step), pk);
  }

  /**
   An attempt of unknown outcome that has a stored body is never stuck.  From any reachable world its row
   can be reloaded and retried; and then, if PayPal answered the key before, or whichever way it answers
   it now, replies to retries alone bring the key to a row whose outcome is known.
   */
  lemma RetryRecovers(captures: map<nat, Capture>, steps: seq<Step>, pk: nat)
    requires ValidRun(Initial(captures), steps) && Pending(Run(Initial(captures), steps).db.rows, pk)
    requires Run(Initial(captures), steps).db.rows[pk].body.Some?
    ensures var w := Run(Initial(captures), steps);
      var h := HandleOf(pk, w.db.rows[pk]);
      && h.key.Some? && ValidRun(w, [Load(pk), Retry(h)])
      && var posted := Run(w, [Load(pk), Retry(h)]);
         && posted.db == w.db && h in posted.posted
         && if h.key.value in w.paypal.answers then RetryingConcludes(posted, h.key.value)
            else
              && Answers(posted, h, Refuse(h))
              && forall step :: Answers(posted, h, step) ==> RetryingConcludes(Next(posted, step), h.key.value)
  {
    hide Inv, BodiesSendable, RetryingConcludes, Next, Enabled;
    ReachableSendable(captures, steps);
    var w := Run(Initial(captures), steps);
    var h := HandleOf(pk, w.db.rows[pk]);
    Repost(w, pk);
    var posted := PostedAgain(w, h);
    assert BodiesSendable(posted) by {
      SendableSame(w, posted);
    }
    if h.key.value in w.paypal.answers {
      PostedConcludes(posted, pk);
    } else {
      assert Enabled(posted, Refuse(h)) by {
        RefuseEnabled(posted, h);
      }
      forall step | Answers(posted, h, step) ensures RetryingConcludes(Next(posted, step), h.key.value) {
        AnsweredConcludes(posted, pk, step);
      }
    }
  }

  lemma RefuseEnabled(w: World, h: Handle)
    requires h in w.posted && h.key.Some? && h.key.value !in w.paypal.answers
    ensures Enabled(w, Refuse(h))
  {}

  lemma SendableSame(w: World, other: World)
    requires BodiesSendable(w) && other.issued == w.issued && other.db.captures == w.db.captures
    ensures BodiesSendable(other)
  {}

  lemma ReachableSendable(captures: map<nat, Capture>, steps: seq<Step>)
    requires ValidRun(Initial(captures), steps)
    ensures Inv(Run(Initial(captures), steps)) && BodiesSendable(Run(Initial(captures), steps))
  {
    ReachableOk(captures, steps);
    InitialOk(captures);
    RunKeepsSendable(Initial(captures), steps);
  }

  // ---------- freeing a capture ----------

  function PendingOf(rows: map<nat, Refund>, capture: nat): set<nat> {
    set pk | pk in rows && Matches(UnknownOutcome(capture), pk, rows[pk])
  }

  ghost predicate AllRecoverable(rows: map<nat, Refund>, capture: nat) {
    forall pk :: pk in PendingOf(rows, capture) ==> Recoverable(rows[pk])
  }

  /** A webhook that reports the refund in full ends a row that has its id. */
  lemma WebhookConcludes(w: World, pk: nat) returns (steps: seq<Step>)
    requires Inv(w) && pk in w.db.rows && w.db.rows[pk].paypalId.Some?
    ensures ValidRun(w, steps) && Frees(w.db.rows, Run(w, steps).db.rows, pk)
  {
    hide TableOk, KeysOk, Carried, RowsOk, PayPalOk, HandlesOk, NewsOk, BudgetOk;
    RowFacts(w, pk);
    var id := w.db.rows[pk].paypalId.value;
    RefundKnown(w, id);
    var n := Notice(w.db.rows[pk].capture, FullNews(w.paypal, id));
    NewsKeeps(w, Notify(n));
    var told := Next(w, Notify(n));
    AdoptKeeps(told, n);
    assert Matches(WithPaypalId(id), pk, w.db.rows[pk]);
    assert First(w.db.rows, WithPaypalId(id), w.db.nextPk) == Some(pk);
    TwoSteps(w, Notify(n), Adopt(n));
    steps := [Notify(n), Adopt(n)];
  }

  /** A retry that PayPal refuses, or answered before. */
  lemma RetryFrees(w: World, pk: nat) returns (steps: seq<Step>)
    requires Inv(w) && BodiesSendable(w) && Pending(w.db.rows, pk) && w.db.rows[pk].body.Some?
    ensures ValidRun(w, steps) && Frees(w.db.rows, Run(w, steps).db.rows, pk)
  {
    hide Inv, BodiesSendable, Frees, OfRetrying;
    Repost(w, pk);
    var h := HandleOf(pk, w.db.rows[pk]);
    var first, posted := [Load(pk), Retry(h)], PostedAgain(w, h);
    SendableSame(w, posted);
    if h.key.value !in w.paypal.answers {
      StepKeeps(posted, Refuse(h));
      StepKeepsSendable(posted, Refuse(h));
      assert ValidRun(posted, [Refuse(h)]) && Run(posted, [Refuse(h)]) == Next(posted, Refuse(h)) by {
        assert [Refuse(h)][1..] == [];
      }
      Joined(w, first, [Refuse(h)]);
      first, posted := first + [Refuse(h)], Next(posted, Refuse(h));
    }
    hide Enabled, Next;
    var rest := AnswerConcludes(posted, pk);
    Joined(w, first, rest);
    steps := first + rest;
  }

  lemma FreesFewer(before: map<nat, Refund>, after: map<nat, Refund>, pk: nat, capture: nat)
    requires Frees(before, after, pk) && pk in PendingOf(before, capture) && AllRecoverable(before, capture)
    ensures PendingOf(after, capture) <= PendingOf(before, capture) - {pk} && AllRecoverable(after, capture)
  {
    forall q | q in PendingOf(after, capture)
      ensures q in PendingOf(before, capture) && q != pk && after[q] == before[q]
    {
      assert Pending(after, q);
    }
  }

  lemma {:induction false} FreesAll(w: World, capture: nat) returns (steps: seq<Step>)
    requires Inv(w) && BodiesSendable(w) && AllRecoverable(w.db.rows, capture)
    ensures ValidRun(w, steps) && PendingOf(Run(w, steps).db.rows, capture) == {}
    decreases |PendingOf(w.db.rows, capture)|
  {
    if PendingOf(w.db.rows, capture) == {} {
      return [];
    }
    hide Inv, BodiesSendable, Frees, Enabled, Next;
    var pk :| pk in PendingOf(w.db.rows, capture);
    assert Pending(w.db.rows, pk) && Recoverable(w.db.rows[pk]);
    var one;
    if w.db.rows[pk].body.Some? {
      one := RetryFrees(w, pk);
    } else {
      one := WebhookConcludes(w, pk);
    }
    var after := Run(w, one);
    FreesFewer(w.db.rows, after.db.rows, pk, capture);
    RunKeeps(w, one);
    RunKeepsSendable(w, one);
    Fewer(PendingOf(after.db.rows, capture), PendingOf(w.db.rows, capture), pk);
    hide PendingOf, AllRecoverable;
    var rest := FreesAll(after, capture);
    Joined(w, one, rest);
    steps := one + rest;
  }

  lemma {:induction false} Fewer(a: set<nat>, b: set<nat>, pk: nat)
    requires pk in b && a <= b - {pk}
    ensures |a| < |b|
    decreases b
  {
    if x :| x in a {
      if a == {x} {
        assert |b| == |b - {x, pk}| + 2;
      } else {
        Fewer(a - {x}, b - {x}, pk);
      }
    } else {
      assert a == {} && |b| >= 1;
    }
  }

  // ---------- what nothing can end ----------

  /** An attempt of unknown outcome without body or id: it was never posted, and PayPal never hears of its key. */
  predicate Unsent(rows: map<nat, Refund>, pk: nat) {
    Pending(rows, pk) && !Recoverable(rows[pk])
  }

  /** PayPal answers only keys whose body was stored. */
  ghost predicate AnswersSent(w: World) {
    forall k :: k in w.paypal.answers ==> k in w.issued && w.issued[k].body.Some?
  }

  lemma AnswersIssued(w: World)
    requires Inv(w)
    ensures forall k :: k in w.paypal.answers ==> k in w.issued
  {}

  lemma StepKeepsAnswersSent(w: World, step: Step)
    requires Inv(w) && Enabled(w, step) && AnswersSent(w)
    ensures AnswersSent(Next(w, step))
  {
    hide Inv;
    StepRemembers(w, step);
    if step.Create? || step.Refuse? {
      PostedIsIssued(w, step.handle);
    }
    hide StartRefund, SettleRefund, MarkRefundFailed, AdoptRemoteRefund, MergeRefundAttempt, RetryRefund;
    AnswersIssued(w);
  }

  lemma UnsentUnanswered(w: World, pk: nat)
    requires Inv(w) && AnswersSent(w) && Unsent(w.db.rows, pk)
    ensures w.db.rows[pk].key.Some? && w.db.rows[pk].key.value !in w.paypal.answers
  {
    hide Inv;
    RowFacts(w, pk);
  }

  /** Settling, failing, binding and merging need PayPal's answer to the key, and a webhook needs the id. */
  lemma StepKeepsUnsent(w: World, step: Step, pk: nat)
    requires Inv(w) && Enabled(w, step) && AnswersSent(w) && Unsent(w.db.rows, pk)
    ensures Unsent(Next(w, step).db.rows, pk) && Next(w, step).db.rows[pk].capture == w.db.rows[pk].capture
  {
    hide Inv, Enabled, Next, AnswersSent;
    var e := StepEffect(w, step);
    UnsentUnanswered(w, pk);
    NextPkBounds(w);
    hide UpdateFromPayload;
    match e {
      case Same =>
      case MarkedFailed(q) => assert q != pk;
      case Updated(q, _) => assert q != pk;
      case Merged(a, s, _) => assert a != pk && s != pk;
      case Adopted(_) =>
      case Started(_) =>
    }
  }

  lemma {:induction false} RunKeepsUnsent(w: World, steps: seq<Step>, pk: nat)
    requires Inv(w) && ValidRun(w, steps) && AnswersSent(w) && Unsent(w.db.rows, pk)
    ensures Unsent(Run(w, steps).db.rows, pk) && Run(w, steps).db.rows[pk].capture == w.db.rows[pk].capture
    decreases |steps|
  {
    hide Inv, Next, Enabled, AnswersSent, Unsent;
    if steps != [] {
      StepKeeps(w, steps[0]);
      StepKeepsAnswersSent(w, steps[0]);
      StepKeepsUnsent(w, steps[0], pk);
      RunKeepsUnsent(Next(w, steps[0]), steps[1..], pk);
    }
  }

  lemma {:induction false} RunKeepsAnswersSent(w: World, steps: seq<Step>)
    requires Inv(w) && ValidRun(w, steps) && AnswersSent(w)
    ensures AnswersSent(Run(w, steps))
    decreases |steps|
  {
    hide Inv, Next, Enabled, AnswersSent;
    if steps != [] {
      StepKeeps(w, steps[0]);
      StepKeepsAnswersSent(w, steps[0]);
      RunKeepsAnswersSent(Next(w, steps[0]), steps[1..]);
    }
  }

  // ---------- when a capture can be refunded again ----------

  /** start_refund finds no unresolved attempt. */
  predicate Unblocked(db: Db, capture: nat) {
    First(db.rows, UnknownOutcome(capture), db.nextPk).None?
  }

  lemma UnblockedIff(w: World, capture: nat)
    requires Inv(w)
    ensures Unblocked(w.db, capture) <==> PendingOf(w.db.rows, capture) == {}
  {
    hide Inv;
    NextPkBounds(w);
    if Unblocked(w.db, capture) {
      assert forall pk :: pk in w.db.rows ==> !Matches(UnknownOutcome(capture), pk, w.db.rows[pk]);
    } else {
      assert First(w.db.rows, UnknownOutcome(capture), w.db.nextPk).value in PendingOf(w.db.rows, capture);
    }
  }

  /** From here some run ends every unknown outcome on the capture. */
  ghost predicate CanUnblock(w: World, capture: nat) {
    exists more :: ValidRun(w, more) && Unblocked(Run(w, more).db, capture)
  }

  /**
   From any reachable world, a capture can be freed for its next refund if and only if each of its rows of
   unknown outcome has a stored body or a PayPal id.
   */
  lemma CanUnblockIff(captures: map<nat, Capture>, steps: seq<Step>, capture: nat)
    requires ValidRun(Initial(captures), steps)
    ensures var w := Run(Initial(captures), steps);
      CanUnblock(w, capture) <==> AllRecoverable(w.db.rows, capture)
  {
    hide Inv, Next, Enabled, BodiesSendable, AnswersSent, Unblocked, PendingOf;
    var w := Run(Initial(captures), steps);
    ReachableSendable(captures, steps);
    if AllRecoverable(w.db.rows, capture) {
      var more := FreesAll(w, capture);
      RunKeeps(w, more);
      UnblockedIff(Run(w, more), capture);
    } else {
      var pk := SomeUnsent(w.db.rows, capture);
      NothingAnswered(captures);
      InitialOk(captures);
      RunKeepsAnswersSent(Initial(captures), steps);
      forall more | ValidRun(w, more) ensures !Unblocked(Run(w, more).db, capture) {
        RunKeeps(w, more);
        RunKeepsUnsent(w, more, pk);
        UnblockedIff(Run(w, more), capture);
        UnsentIsPending(Run(w, more).db.rows, capture, pk);
      }
    }
  }

  lemma NothingAnswered(captures: map<nat, Capture>)
    ensures AnswersSent(Initial(captures))
  {}

  lemma SomeUnsent(rows: map<nat, Refund>, capture: nat) returns (pk: nat)
    requires !AllRecoverable(rows, capture)
    ensures Unsent(rows, pk) && rows[pk].capture == capture
  {
    pk :| pk in PendingOf(rows, capture) && !Recoverable(rows[pk]);
  }

  lemma UnsentIsPending(rows: map<nat, Refund>, capture: nat, pk: nat)
    requires Unsent(rows, pk) && rows[pk].capture == capture
    ensures PendingOf(rows, capture) != {}
  {
    assert pk in PendingOf(rows, capture);
  }

  ghost predicate AllPosted(issued: map<string, Issue>) {
    forall k :: k in issued ==> issued[k].body.Some?
  }

  lemma StepKeepsPosted(w: World, step: Step)
    requires Inv(w) && Enabled(w, step) && AllPosted(w.issued) && (step.Start? ==> step.post)
    ensures AllPosted(Next(w, step).issued)
  {
    hide Inv;
    match step {
      case Start(c, amount, note, invoice, post) =>
        if StartRefund(w.db, c, amount, note, invoice, StartBody(amount, note, invoice, post)).Done? {
          StartEffect(w, c, amount, note, invoice, post);
          hide StartRefund, AfterStart;
        }
      case _ =>
    }
  }

  lemma {:induction false} RunKeepsPosted(w: World, steps: seq<Step>)
    requires Inv(w) && ValidRun(w, steps) && AllPosted(w.issued)
    requires forall s :: s in steps && s.Start? ==> s.post
    ensures AllPosted(Run(w, steps).issued)
    decreases |steps|
  {
    hide Inv, Next, Enabled, AllPosted;
    if steps != [] {
      assert steps[0] in steps;
      StepKeeps(w, steps[0]);
      StepKeepsPosted(w, steps[0]);
      RunKeepsPosted(Next(w, steps[0]), steps[1..]);
    }
  }

  /** As long as attempts are started by refund_capture, which stores the body, no capture is ever blocked for good. */
  lemma NeverBlockedForGood(captures: map<nat, Capture>, steps: seq<Step>, capture: nat)
    requires ValidRun(Initial(captures), steps) && forall s :: s in steps && s.Start? ==> s.post
    ensures CanUnblock(Run(Initial(captures), steps), capture)
  {
    hide Inv;
    var w := Run(Initial(captures), steps);
    ReachableOk(captures, steps);
    InitialOk(captures);
    RunKeepsPosted(Initial(captures), steps);
    CanUnblockIff(captures, steps, capture);
    hide CanUnblock;
    forall pk | pk in PendingOf(w.db.rows, capture) ensures Recoverable(w.db.rows[pk]) {
      RowFacts(w, pk);
    }
  }

  // ---------- an attempt that blocks its capture ----------

  const CONFIRMED: map<nat, Capture> := map[0 := Capture(7, Some("CAPTURE"), 10, "COMPLETED", true)]

  /** start_refund called without a body. */
  const BODILESS := Start(0, Some(4), "", "", false)

  lemma BodilessStarts()
    ensures ValidRun(Initial(CONFIRMED), [BODILESS])
    ensures Unsent(Run(Initial(CONFIRMED), [BODILESS]).db.rows, 0)
    ensures Run(Initial(CONFIRMED), [BODILESS]).db.rows[0].capture == 0
  {
    hide RequestIds.RefundRequestId;
    var w := Initial(CONFIRMED);
    InitialOk(CONFIRMED);
    assert First(w.db.rows, UnknownOutcome(0), 0).None?;
    StartEffect(w, 0, Some(4), "", "", false);
    assert [BODILESS][1..] == [];
  }

  /** One such call, and no run ever frees the capture for a refund. */
  lemma BodilessBlocks()
    ensures ValidRun(Initial(CONFIRMED), [BODILESS]) && !CanUnblock(Run(Initial(CONFIRMED), [BODILESS]), 0)
  {
    hide Next, Enabled, CanUnblock, Unsent;
    BodilessStarts();
    var w := Run(Initial(CONFIRMED), [BODILESS]);
    CanUnblockIff(CONFIRMED, [BODILESS], 0);
    assert !AllRecoverable(w.db.rows, 0) by {
      UnsentUnrecoverable(w.db.rows, 0, 0);
    }
  }

  lemma UnsentUnrecoverable(rows: map<nat, Refund>, capture: nat, pk: nat)
    requires Unsent(rows, pk) && rows[pk].capture == capture
    ensures !AllRecoverable(rows, capture)
  {
    assert pk in PendingOf(rows, capture);
  }
}
