/**
 How the local bookkeeping moves: what each step does to the table, when a capture has at
 most one attempt of unknown outcome, when the reserved sum stays within the captured
 amount, and how the double counting that adoption introduces is undone.
 */
module RefundCounting {
  import opened Options
  import opened RefundRows
  import opened RefundProtocol
  import opened RefundInvariant
  import opened RefundSafety

  // ---------- what one step does to the table ----------

  datatype Effect =
    | Same
    | MarkedFailed(pk: nat)
    | Updated(pk: nat, payload: Payload)
    | Merged(attempt: nat, survivor: nat, id: string)
    | Adopted(notice: Notice)
    | Started(row: Refund)

  /** The row a payload is applied to, if there is one already. */
  function Target(w: World, step: Step): Option<nat> {
    match step
    case Settle(h, _) => if h.pk in w.db.rows then Some(h.pk) else None
    case Bind(h, _) => if h.pk in w.db.rows then Some(h.pk) else None
    case Adopt(n) =>
      if n.payload.id.Some? then First(w.db.rows, WithPaypalId(n.payload.id.value), w.db.nextPk) else None
    case _ => None
  }

  ghost predicate HasEffect(w: World, step: Step, e: Effect) {
    var db := Next'(w, step).db;
    match e
    case Same => db == w.db
    case MarkedFailed(pk) =>
      && pk in w.db.rows && db == w.db.(rows := w.db.rows[pk := w.db.rows[pk].(status := Failed)])
      && w.db.rows[pk].key.Some? && w.db.rows[pk].key.value in w.paypal.answers
      && w.paypal.answers[w.db.rows[pk].key.value].Refused?
    case Updated(pk, p) =>
      && pk in w.db.rows && db == w.db.(rows := w.db.rows[pk := UpdateFromPayload(w.db.rows[pk], p)])
      && (step.Settle? || step.Bind? || step.Adopt?) && p == PayloadOf(step) && Target(w, step) == Some(pk)
      && (p.status.Some? ==> !p.status.value.OutcomeUnknown())
      && ((step.Settle? || step.Bind?) ==>
            && w.db.rows[pk].key.Some? && w.db.rows[pk].key.value in w.paypal.answers
            && w.paypal.answers[w.db.rows[pk].key.value].Made?)
      && (step.Adopt? ==> w.db.rows[pk].paypalId.Some?)
    case Merged(a, s, id) =>
      && a in w.db.rows && s in w.db.rows && a != s && MergeRows(w.db.rows, a, s).Some?
      && db == w.db.(rows := MergeRows(w.db.rows, a, s).value)
      && MadeFor(w.paypal, w.db.rows[a].key, id) && w.db.rows[s].paypalId == Some(id)
      && (step.Settle? || step.Bind? || step.MergeByHand?)
      && (step.MergeByHand? ==> w.db.rows[a].status.OutcomeUnknown())
    case Adopted(n) =>
      && step == Adopt(n) && Target(w, step).None? && n in w.notices && n.capture in w.db.captures && n.payload.id.Some?
      && (n.payload.status.Some? ==> !n.payload.status.value.OutcomeUnknown())
      && (forall q :: q in w.db.rows ==> w.db.rows[q].paypalId != n.payload.id)
      && db == AfterAdoption(w.db, n)
    case Started(row) =>
      && step.Start? && row.key.Some? && row.paypalId.None? && row.status.Initiated? && row.capture in w.db.captures
      && row.amount + Reserved(w.db, row.capture) <= w.db.captures[row.capture].amount
      && (forall q :: q in w.db.rows ==> !Matches(UnknownOutcome(row.capture), q, w.db.rows[q]))
      && db == w.db.(rows := w.db.rows[w.db.nextPk := row], nextPk := w.db.nextPk + 1)
  }

  /** The payload a step applies, or an empty one. */
  function PayloadOf(step: Step): Payload {
    match step
    case Settle(_, p) => p
    case Bind(_, n) => n.payload
    case Adopt(n) => n.payload
    case _ => Payload(None, None, None)
  }

  /** Next, extended to steps that cannot be taken. */
  ghost function Next'(w: World, step: Step): World {
    if Enabled(w, step) then Next(w, step) else w
  }

  lemma SettleEffect(w: World, step: Step, h: Handle, id: string, p: Payload) returns (e: Effect)
    requires Inv(w) && Enabled(w, step) && Settling(w, h, id, p)
    requires step == Settle(h, p) || (exists n :: step == Bind(h, n) && n.payload == p)
    ensures HasEffect(w, step, e)
  {
    hide Inv;
    SettleKeeps(w, h, id, p);
    HandleFacts(w, h);
    if h.pk !in w.db.rows {
      return Same;
    }
    var adopted := if p.id.Some? then First(w.db.rows, OtherWithPaypalId(p.id.value, h.pk), w.db.nextPk) else None;
    if adopted.Some? {
      return Merged(h.pk, adopted.value, id);
    }
    return Updated(h.pk, p);
  }

  lemma AdoptEffect(w: World, n: Notice) returns (e: Effect)
    requires Inv(w) && n in w.notices
    ensures HasEffect(w, Adopt(n), e)
  {
    hide Inv;
    NoticeFacts(w, n);
    AdoptKeeps(w, n);
    NextPkBounds(w);
    var known := First(w.db.rows, WithPaypalId(n.payload.id.value), w.db.nextPk);
    if known.Some? {
      return Updated(known.value, n.payload);
    }
    forall q | q in w.db.rows ensures w.db.rows[q].paypalId != n.payload.id {
      assert !Matches(WithPaypalId(n.payload.id.value), q, w.db.rows[q]);
    }
    return Adopted(n);
  }

  lemma NextPkBounds(w: World)
    requires Inv(w)
    ensures forall q :: q in w.db.rows ==> q < w.db.nextPk
  {
  }

  lemma StartStepEffect(w: World, c: nat, amount: Option<nat>, note: string,
    invoice: string, post: bool) returns (e: Effect)
    requires Inv(w) && Enabled(w, Start(c, amount, note, invoice, post))
    ensures HasEffect(w, Start(c, amount, note, invoice, post), e)
  {
    hide Inv;
    NextPkBounds(w);
    var body := StartBody(amount, note, invoice, post);
    if StartRefund(w.db, c, amount, note, invoice, body).Done? {
      StartEffect(w, c, amount, note, invoice, post);
      assert First(w.db.rows, UnknownOutcome(c), w.db.nextPk).None?;
      return Started(StartRefund(w.db, c, amount, note, invoice, body).db.rows[w.db.nextPk]);
    }
    return Same;
  }

  lemma FailEffect(w: World, h: Handle) returns (e: Effect)
    requires Inv(w) && Refusal(h) in w.messages
    ensures HasEffect(w, Fail(h), e)
  {
    hide TableOk, KeysOk, Carried, RowsOk, PayPalOk, BudgetOk;
    assert MessageOk(w.paypal, w.posted, Refusal(h));
    HandleFacts(w, h);
    var current := Locate(w.db, h);
    if current.Some? && w.db.rows[current.value].status.OutcomeUnknown() {
      return MarkedFailed(current.value);
    }
    return Same;
  }

  lemma StepEffect(w: World, step: Step) returns (e: Effect)
    requires Inv(w) && Enabled(w, step)
    ensures HasEffect(w, step, e)
  {
    hide Inv;
    match step {
      case Start(c, amount, note, invoice, post) => e := StartStepEffect(w, c, amount, note, invoice, post);
      case Settle(h, p) =>
        ReplyIsSettling(w, h, p);
        e := SettleEffect(w, step, h, w.paypal.answers[h.key.value].id, p);
      case Bind(h, n) =>
        BindIsSettling(w, h, n);
        e := SettleEffect(w, step, h, n.payload.id.value, n.payload);
      case Fail(h) => e := FailEffect(w, h);
      case Adopt(n) => e := AdoptEffect(w, n);
      case MergeByHand(h, s) =>
        MergeByHandKeeps(w, h, s);
        e := if MergeRefundAttempt(w.db, h, s).Done? then Merged(h.pk, s, w.db.rows[s].paypalId.value) else Same;
      case _ => e := Same;
    }
  }

  lemma StepAnswers(w: World, step: Step)
    requires Inv(w) && Enabled(w, step)
    ensures forall k :: k in w.paypal.answers ==>
      k in Next(w, step).paypal.answers && Next(w, step).paypal.answers[k] == w.paypal.answers[k]
  {
    hide Inv;
  }

  // ---------- at most one attempt of unknown outcome ----------

  predicate KeyedPending(row: Refund) {
    row.key.Some? && row.status.OutcomeUnknown()
  }

  /** No two rows of one capture hold a key whose outcome is unknown. */
  ghost predicate OnePending(rows: map<nat, Refund>) {
    forall p, q :: p in rows && q in rows && p != q && rows[p].capture == rows[q].capture ==>
      !(KeyedPending(rows[p]) && KeyedPending(rows[q]))
  }

  /**
   Either of two disciplines is enough for OnePending.  Both are facts about single messages:
   a 2xx refund response that reports a status also carries the refund id; a webhook that
   reports a refund carries a status this library knows.
   */
  datatype Discipline = RepliesCarryIds | WebhooksCarryStatus

  predicate Follows(d: Discipline, step: Step) {
    match d
    case RepliesCarryIds => step.Settle? && step.payload.status.Some? ==> step.payload.id.Some?
    case WebhooksCarryStatus => step.Adopt? ==> step.notice.payload.status.Some?
  }

  /** What the discipline buys: attempts settle together with their id, or adopted rows are never pending. */
  ghost predicate Orderly(w: World, d: Discipline) {
    match d
    case RepliesCarryIds =>
      forall p :: p in w.db.rows && w.db.rows[p].key.Some? && w.db.rows[p].paypalId.None? ==>
        || w.db.rows[p].status.OutcomeUnknown()
        || (w.db.rows[p].key.value in w.paypal.answers && w.paypal.answers[w.db.rows[p].key.value].Refused?)
    case WebhooksCarryStatus =>
      forall p :: p in w.db.rows && w.db.rows[p].key.None? ==> !w.db.rows[p].status.OutcomeUnknown()
  }

  lemma MergedKeepsPending(w: World, a: nat, s: nat, id: string, d: Discipline)
    requires Inv(w) && OnePending(w.db.rows) && Orderly(w, d)
    requires a in w.db.rows && s in w.db.rows && a != s && MergeRows(w.db.rows, a, s).Some?
    requires MadeFor(w.paypal, w.db.rows[a].key, id) && w.db.rows[s].paypalId == Some(id)
    ensures OnePending(MergeRows(w.db.rows, a, s).value)
  {
    hide Inv;
    MergePair(w, a, s, id);
    var rows, after := w.db.rows, MergeRows(w.db.rows, a, s).value;
    assert KeyedPending(after[s]) ==> KeyedPending(rows[a]);
  }

  /** Only a merge can put a second key of unknown outcome on a capture. */
  lemma UnmergedKeepsPending(w: World, step: Step, e: Effect)
    requires Inv(w) && Enabled(w, step) && HasEffect(w, step, e) && !e.Merged? && OnePending(w.db.rows)
    ensures OnePending(Next(w, step).db.rows)
  {
    hide Inv, Next, Enabled;
    var rows, after := w.db.rows, Next(w, step).db.rows;
    NextPkBounds(w);
    match e {
      case Merged(_, _, _) =>
      case Adopted(_) =>
      case Started(row) =>
        forall q | q in rows && rows[q].capture == row.capture ensures !KeyedPending(rows[q]) {
          assert !Matches(UnknownOutcome(row.capture), q, rows[q]);
        }
      case _ =>
        forall q | q in after && q in rows
          ensures after[q].capture == rows[q].capture && (KeyedPending(after[q]) ==> KeyedPending(rows[q]))
        {
        }
    }
  }

  lemma EffectKeepsOnePending(w: World, step: Step, d: Discipline, e: Effect)
    requires Inv(w) && Enabled(w, step) && HasEffect(w, step, e)
    requires OnePending(w.db.rows) && Orderly(w, d)
    ensures OnePending(Next(w, step).db.rows)
  {
    hide Inv, Next, Enabled, Orderly;
    if e.Merged? {
      MergedKeepsPending(w, e.attempt, e.survivor, e.id, d);
    } else {
      UnmergedKeepsPending(w, step, e);
    }
  }

  lemma EffectKeepsOrderly(w: World, step: Step, d: Discipline, e: Effect)
    requires Inv(w) && Enabled(w, step) && HasEffect(w, step, e) && Follows(d, step) && Orderly(w, d)
    ensures Orderly(Next(w, step), d)
  {
    hide *;
    match d {
      case RepliesCarryIds => EffectKeepsIdsCarried(w, step, e);
      case WebhooksCarryStatus => EffectKeepsStatusCarried(w, step, e);
    }
  }

  lemma EffectKeepsIdsCarried(w: World, step: Step, e: Effect)
    requires Inv(w) && Enabled(w, step) && HasEffect(w, step, e)
    requires Follows(RepliesCarryIds, step) && Orderly(w, RepliesCarryIds)
    ensures Orderly(Next(w, step), RepliesCarryIds)
  {
    hide Inv, Next, Enabled;
    StepAnswers(w, step);
    match e {
      case Merged(a, s, id) => MergePair(w, a, s, id);
      case Started(_) => NextPkBounds(w);
      case Adopted(_) => NextPkBounds(w);
      case _ =>
        if step.Bind? {
          BindCarriesId(w, step.handle, step.notice);
        }
    }
  }

  lemma EffectKeepsStatusCarried(w: World, step: Step, e: Effect)
    requires Inv(w) && Enabled(w, step) && HasEffect(w, step, e)
    requires Follows(WebhooksCarryStatus, step) && Orderly(w, WebhooksCarryStatus)
    ensures Orderly(Next(w, step), WebhooksCarryStatus)
  {
    hide Inv, Next, Enabled;
    match e {
      case Merged(a, s, id) => MergePair(w, a, s, id);
      case Started(_) => NextPkBounds(w);
      case Adopted(_) => NextPkBounds(w);
      case _ =>
    }
  }

  lemma StepKeepsPending(w: World, step: Step, d: Discipline)
    requires Inv(w) && Enabled(w, step) && Follows(d, step)
    requires OnePending(w.db.rows) && Orderly(w, d)
    ensures OnePending(Next(w, step).db.rows) && Orderly(Next(w, step), d)
  {
    hide *;
    var e := StepEffect(w, step);
    EffectKeepsOnePending(w, step, d, e);
    EffectKeepsOrderly(w, step, d, e);
  }

  lemma {:induction false} RunKeepsPending(w: World, steps: seq<Step>, d: Discipline)
    requires Inv(w) && ValidRun(w, steps) && OnePending(w.db.rows) && Orderly(w, d)
    requires forall s :: s in steps ==> Follows(d, s)
    ensures OnePending(Run(w, steps).db.rows) && Orderly(Run(w, steps), d)
    decreases |steps|
  {
    hide Inv, Next, Enabled, OnePending, Orderly, Follows;
    if steps != [] {
      assert steps[0] in steps;
      StepKeeps(w, steps[0]);
      StepKeepsPending(w, steps[0], d);
      RunKeepsPending(Next(w, steps[0]), steps[1..], d);
    }
  }

  /** In a run that keeps either discipline throughout, a capture never has two keys of unknown outcome. */
  lemma AtMostOnePending(captures: map<nat, Capture>, steps: seq<Step>, d: Discipline)
    requires ValidRun(Initial(captures), steps) && forall s :: s in steps ==> Follows(d, s)
    ensures OnePending(Run(Initial(captures), steps).db.rows)
  {
    InitialOk(captures);
    RunKeepsPending(Initial(captures), steps, d);
  }

  /** No key is issued for a capture while an earlier row's outcome is unknown, discipline or not. */
  lemma NoKeyWhilePending(captures: map<nat, Capture>, steps: seq<Step>, step: Step, pk: nat)
    requires ValidRun(Initial(captures), steps) && Enabled(Run(Initial(captures), steps), step) && step.Start?
    requires pk in Run(Initial(captures), steps).db.rows
    requires Matches(UnknownOutcome(step.capture), pk, Run(Initial(captures), steps).db.rows[pk])
    ensures Next(Run(Initial(captures), steps), step) == Run(Initial(captures), steps)
  {
    hide Inv;
    ReachableOk(captures, steps);
    NextPkBounds(Run(Initial(captures), steps));
  }

  // ---------- the reserved sum ----------

  lemma OneRowReserved(rows: map<nat, Refund>, pk: nat, row: Refund, capture: nat, bound: nat)
    requires pk < bound
    ensures ReservedBelow(rows[pk := row], capture, bound)
         == ReservedBelow(rows, capture, bound) + Weight(rows[pk := row], capture, pk) - Weight(rows, capture, pk)
  {
    ReservedDiffersAt(rows, rows[pk := row], capture, pk, bound);
  }

  lemma NewRowReserved(rows: map<nat, Refund>, pk: nat, row: Refund, capture: nat)
    requires pk !in rows
    ensures ReservedBelow(rows[pk := row], capture, pk + 1)
         == ReservedBelow(rows, capture, pk) + if row.capture == capture && row.status.Reserves() then row.amount else 0
  {
    OneRowReserved(rows, pk, row, capture, pk + 1);
  }

  /** Adopting a refund adds its own amount to the reserved sum, on top of any local attempt's. */
  lemma AdoptionAddsExactly(w: World, n: Notice, capture: nat)
    requires Inv(w) && n in w.notices && n.capture in w.db.captures
    ensures var row := AdoptedRow(w.db, n.capture, n.payload);
      Reserved(AfterAdoption(w.db, n), capture)
        == Reserved(w.db, capture) + if n.capture == capture && row.status.Reserves() then row.amount else 0
  {
    hide Inv;
    NextPkUnused(w);
    var row := AdoptedRow(w.db, n.capture, n.payload);
    NewRowReserved(w.db.rows, w.db.nextPk, row, capture);
    FlaggingKeepsReservation(w.db.rows[w.db.nextPk := row], n.capture, w.db.nextPk, capture, w.db.nextPk + 1);
  }

  /** Nothing is adopted, and no refund recorded as cancelled or failed is reported live again. */
  predicate Quiet(w: World, step: Step) {
    && (step.Adopt? ==> Target(w, step).Some?)
    && (Target(w, step).Some? && PayloadOf(step).status.Some? && PayloadOf(step).status.value.Reserves() ==>
          !w.db.rows[Target(w, step).value].status.Dead())
  }

  predicate QuietRun(w: World, steps: seq<Step>)
    requires ValidRun(w, steps)
    decreases |steps|
  {
    steps == [] || (Quiet(w, steps[0]) && QuietRun(Next(w, steps[0]), steps[1..]))
  }

  predicate Covered(db: Db) {
    forall c :: c in db.captures ==> Reserved(db, c) <= db.captures[c].amount
  }

  lemma StepKeepsCovered(w: World, step: Step)
    requires Inv(w) && Enabled(w, step) && Quiet(w, step) && Covered(w.db)
    ensures Covered(Next(w, step).db)
  {
    hide Inv, Enabled, Next;
    var e := StepEffect(w, step);
    NextPkBounds(w);
    StepRemembers(w, step);
    forall c | c in w.db.captures ensures Reserved(Next(w, step).db, c) <= w.db.captures[c].amount {
      match e {
        case Same =>
        case MarkedFailed(pk) => OneRowReserved(w.db.rows, pk, w.db.rows[pk].(status := Failed), c, w.db.nextPk);
        case Updated(pk, p) => OneRowReserved(w.db.rows, pk, UpdateFromPayload(w.db.rows[pk], p), c, w.db.nextPk);
        case Merged(a, s, _) => MergeReleasesExactly(w.db.rows, a, s, c, w.db.nextPk);
        case Adopted(_) =>
        case Started(row) => NewRowReserved(w.db.rows, w.db.nextPk, row, c);
      }
    }
  }

  lemma {:induction false} RunKeepsCovered(w: World, steps: seq<Step>)
    requires Inv(w) && Covered(w.db) && ValidRun(w, steps) && QuietRun(w, steps)
    ensures Covered(Run(w, steps).db)
    decreases |steps|
  {
    hide Inv, Next, Enabled, Covered, Quiet;
    if steps != [] {
      StepKeeps(w, steps[0]);
      StepKeepsCovered(w, steps[0]);
      RunKeepsCovered(Next(w, steps[0]), steps[1..]);
    }
  }

  /** Without adoption and revival, what is reserved never exceeds what was captured:
      refundable_amount stays non-negative. */
  lemma RefundableNeverNegative(captures: map<nat, Capture>, steps: seq<Step>, capture: nat)
    requires ValidRun(Initial(captures), steps) && QuietRun(Initial(captures), steps) && capture in captures
    ensures var db := Run(Initial(captures), steps).db;
      capture in db.captures && Refundable(db, capture) >= 0
  {
    hide Inv, Next, Enabled, Quiet;
    InitialOk(captures);
    ReachableOk(captures, steps);
    RunKeepsCovered(Initial(captures), steps);
  }

  // ---------- double counting undone ----------

  /** Money that moved is on a row that names PayPal's refund. */
  ghost predicate MoneyNamed(rows: map<nat, Refund>) {
    forall p :: p in rows && (rows[p].status.Completed? || rows[p].status.Pending?) ==> rows[p].paypalId.Some?
  }

  lemma StepKeepsNamed(w: World, step: Step)
    requires Inv(w) && Enabled(w, step) && Follows(RepliesCarryIds, step) && MoneyNamed(w.db.rows)
    ensures MoneyNamed(Next(w, step).db.rows)
  {
    hide Inv, Next, Enabled;
    var e := StepEffect(w, step);
    if step.Bind? {
      BindCarriesId(w, step.handle, step.notice);
    }
    if e.Merged? {
      assert Next(w, step).db.rows == MergeRows(w.db.rows, e.attempt, e.survivor).value;
    }
  }

  lemma BindCarriesId(w: World, h: Handle, n: Notice)
    requires Enabled(w, Bind(h, n))
    ensures n.payload.id.Some?
  {
  }

  lemma {:induction false} RunKeepsNamed(w: World, steps: seq<Step>)
    requires Inv(w) && ValidRun(w, steps) && MoneyNamed(w.db.rows)
    requires forall s :: s in steps ==> Follows(RepliesCarryIds, s)
    ensures MoneyNamed(Run(w, steps).db.rows)
    decreases |steps|
  {
    hide Inv, Next, Enabled, MoneyNamed, Follows;
    if steps != [] {
      assert steps[0] in steps;
      StepKeeps(w, steps[0]);
      StepKeepsNamed(w, steps[0]);
      RunKeepsNamed(Next(w, steps[0]), steps[1..]);
    }
  }

  predicate Counts(rows: map<nat, Refund>, capture: nat, pk: nat) {
    pk in rows && rows[pk].capture == capture && rows[pk].status.Reserves()
  }

  /** The PayPal ids on the rows that reserve funds of a capture. */
  function IdsBelow(rows: map<nat, Refund>, capture: nat, bound: nat): set<string> {
    if bound == 0 then {}
    else if Counts(rows, capture, bound - 1) && rows[bound - 1].paypalId.Some?
    then IdsBelow(rows, capture, bound - 1) + {rows[bound - 1].paypalId.value}
    else IdsBelow(rows, capture, bound - 1)
  }

  lemma {:induction false} IdsMembers(rows: map<nat, Refund>, capture: nat, bound: nat, id: string)
    ensures id in IdsBelow(rows, capture, bound)
      <==> exists p: nat :: p < bound && Counts(rows, capture, p) && rows[p].paypalId == Some(id)
  {
    if bound > 0 {
      IdsMembers(rows, capture, bound - 1, id);
    }
  }

  /** The sum of PayPal's amounts over a set of refunds. */
  ghost function TotalOf(refunds: map<string, Remote>, ids: set<string>): nat {
    if ids == {} then 0
    else
      var id :| id in ids;
      TotalOf(refunds, ids - {id}) + if id in refunds then refunds[id].amount else 0
  }

  lemma {:induction false} TotalOfAny(refunds: map<string, Remote>, ids: set<string>, id: string)
    requires id in ids
    ensures TotalOf(refunds, ids) == TotalOf(refunds, ids - {id}) + if id in refunds then refunds[id].amount else 0
    decreases |ids|
  {
    var picked :| picked in ids
      && TotalOf(refunds, ids) == TotalOf(refunds, ids - {picked})
           + if picked in refunds then refunds[picked].amount else 0;
    if picked != id {
      TotalOfAny(refunds, ids - {picked}, id);
      TotalOfAny(refunds, ids - {id}, picked);
      assert ids - {picked} - {id} == ids - {id} - {picked};
    }
  }

  /** Rows with distinct ids reserve at least their refunds' total, and exactly that when each
      recorded its refund's amount. */
  lemma {:induction false} ReservedIsTotal(w: World, capture: nat, bound: nat)
    requires Inv(w)
    requires forall p :: Counts(w.db.rows, capture, p) ==> w.db.rows[p].paypalId.Some?
    ensures TotalOf(w.paypal.refunds, IdsBelow(w.db.rows, capture, bound)) <= ReservedBelow(w.db.rows, capture, bound)
    ensures TotalOf(w.paypal.refunds, IdsBelow(w.db.rows, capture, bound)) == ReservedBelow(w.db.rows, capture, bound)
       <==> forall p :: 0 <= p < bound && Counts(w.db.rows, capture, p) ==> ExactRow(w.paypal, w.db.rows[p])
  {
    hide Inv, RowOk, KeyedOk;
    if bound > 0 {
      ReservedIsTotal(w, capture, bound - 1);
      var p := bound - 1;
      if Counts(w.db.rows, capture, p) {
        RowFacts(w, p);
        BoundFacts(w, p);
        var id := w.db.rows[p].paypalId.value;
        var before := IdsBelow(w.db.rows, capture, p);
        IdsMembers(w.db.rows, capture, p, id);
        assert id !in before;
        TotalOfAny(w.paypal.refunds, before + {id}, id);
        assert before + {id} - {id} == before;
      }
    }
  }

  /** The same over the whole table. */
  lemma ReservedExactIff(w: World, capture: nat)
    requires Inv(w)
    requires forall p :: Counts(w.db.rows, capture, p) ==> w.db.rows[p].paypalId.Some?
    ensures var total := TotalOf(w.paypal.refunds, IdsBelow(w.db.rows, capture, w.db.nextPk));
      && total <= Reserved(w.db, capture)
      && (total == Reserved(w.db, capture) <==>
            forall p :: Counts(w.db.rows, capture, p) ==> ExactRow(w.paypal, w.db.rows[p]))
  {
    hide Inv, ExactRow, TotalOf, IdsBelow;
    NextPkBounds(w);
    ReservedIsTotal(w, capture, w.db.nextPk);
  }

  lemma BoundFacts(w: World, p: nat)
    requires Inv(w) && p in w.db.rows && w.db.rows[p].paypalId.Some?
    ensures BoundOk(w.paypal, w.db.rows[p])
  {
    hide Inv;
    RowFacts(w, p);
  }

  /** The row records what PayPal refunded. */
  predicate ExactRow(paypal: PayPal, row: Refund) {
    row.paypalId.Some? && row.paypalId.value in paypal.refunds &&
      paypal.refunds[row.paypalId.value].amount == row.amount
  }

  /**
   Once a capture has no row of unknown outcome, and every reply that reported a status
   carried its id: the reserving rows name pairwise distinct refunds, no live refund made
   for a local key is missing among them, and the reserved sum covers their total exactly
   when each row recorded its refund's amount.
   */
  lemma DoubleCountingUndone(captures: map<nat, Capture>, steps: seq<Step>, capture: nat)
    requires ValidRun(Initial(captures), steps) && forall s :: s in steps ==> Follows(RepliesCarryIds, s)
    requires forall p :: p in Run(Initial(captures), steps).db.rows ==>
      !Matches(UnknownOutcome(capture), p, Run(Initial(captures), steps).db.rows[p])
    ensures var w := Run(Initial(captures), steps);
      var ids := IdsBelow(w.db.rows, capture, w.db.nextPk);
      && (forall p :: Counts(w.db.rows, capture, p) ==> w.db.rows[p].paypalId.Some?)
      && (forall p, q :: Counts(w.db.rows, capture, p) && Counts(w.db.rows, capture, q) && p != q ==>
            w.db.rows[p].paypalId != w.db.rows[q].paypalId)
      && (forall k :: k in w.issued && w.issued[k].capture == capture && !Final(w.paypal, k) ==>
            k in w.paypal.answers && w.paypal.answers[k].Made? && w.paypal.answers[k].id in ids)
      && TotalOf(w.paypal.refunds, ids) <= Reserved(w.db, capture)
      && (TotalOf(w.paypal.refunds, ids) == Reserved(w.db, capture) <==>
            forall p :: Counts(w.db.rows, capture, p) ==> ExactRow(w.paypal, w.db.rows[p]))
  {
    hide Inv, RowOk;
    var w := Run(Initial(captures), steps);
    ReachableOk(captures, steps);
    InitialOk(captures);
    RunKeepsNamed(Initial(captures), steps);
    forall p | Counts(w.db.rows, capture, p) ensures w.db.rows[p].paypalId.Some? {
      assert !Matches(UnknownOutcome(capture), p, w.db.rows[p]);
    }
    forall p, q | Counts(w.db.rows, capture, p) && Counts(w.db.rows, capture, q) && p != q
      ensures w.db.rows[p].paypalId != w.db.rows[q].paypalId
    {
      RowFacts(w, p);
    }
    forall k | k in w.issued && w.issued[k].capture == capture && !Final(w.paypal, k)
      ensures k in w.paypal.answers && w.paypal.answers[k].Made?
      ensures w.paypal.answers[k].id in IdsBelow(w.db.rows, capture, w.db.nextPk)
    {
      SettledKeyNamed(w, k, capture);
    }
    ReservedExactIff(w, capture);
    hide ExactRow, TotalOf, IdsBelow, Reserved, Final;
  }

  lemma SettledKeyNamed(w: World, key: string, capture: nat)
    requires Inv(w) && key in w.issued && w.issued[key].capture == capture && !Final(w.paypal, key)
    requires forall p :: Counts(w.db.rows, capture, p) ==> w.db.rows[p].paypalId.Some?
    ensures key in w.paypal.answers && w.paypal.answers[key].Made?
    ensures w.paypal.answers[key].id in IdsBelow(w.db.rows, capture, w.db.nextPk)
  {
    hide Inv;
    CarrierReserves(w, key);
    var pk: nat :| Carries(w.db.rows, pk, key) && w.db.rows[pk].status.Reserves()
      && w.db.rows[pk].capture == w.issued[key].capture;
    assert Counts(w.db.rows, capture, pk);
    RowFacts(w, pk);
    IdsMembers(w.db.rows, capture, w.db.nextPk, w.paypal.answers[key].id);
  }

  // ---------- exact amounts ----------

  /** PayPal refunds exactly what was asked, and webhooks report readable amounts. */
  predicate ExactStep(captures: map<nat, Capture>, step: Step) {
    && (step.Create? ==>
          step.handle.body.Some? && step.handle.capture in captures
          && step.made == Asked(captures, step.handle.capture, step.handle.body.value))
    && (step.Notify? ==> step.notice.payload.amount.Some?)
  }

  /** PayPal made each answered key's refund for the amount the key was issued for. */
  ghost predicate AnswersExact(paypal: PayPal, issued: map<string, Issue>) {
    forall k :: k in issued ==> AnswerExact(paypal, k, issued[k].amount)
  }

  predicate AnswerExact(paypal: PayPal, key: string, amount: nat) {
    key in paypal.answers && paypal.answers[key].Made? && paypal.answers[key].id in paypal.refunds ==>
      paypal.refunds[paypal.answers[key].id].amount == amount
  }

  ghost predicate RowsExact(rows: map<nat, Refund>, paypal: PayPal) {
    forall p :: p in rows && rows[p].paypalId.Some? ==> ExactRow(paypal, rows[p])
  }

  ghost predicate NoticesExact(notices: set<Notice>) {
    forall n :: n in notices ==> n.payload.amount.Some?
  }

  ghost predicate AmountsExact(w: World) {
    AnswersExact(w.paypal, w.issued) && RowsExact(w.db.rows, w.paypal) && NoticesExact(w.notices)
  }

  /** PayPal's records keep their amounts, and answered keys keep their refund. */
  lemma StepEvolves(w: World, step: Step)
    requires Inv(w) && Enabled(w, step)
    ensures Evolves(w.paypal, Next(w, step).paypal)
  {
    hide Inv;
  }

  lemma AnswersStayExact(w: World, step: Step)
    requires Inv(w) && Enabled(w, step) && ExactStep(w.db.captures, step) && AnswersExact(w.paypal, w.issued)
    ensures AnswersExact(Next(w, step).paypal, Next(w, step).issued)
  {
    hide Inv;
    AnswersRecorded(w);
    StepEvolves(w, step);
    match step {
      case Create(h, _, _, _) => PostedIsIssued(w, h);
      case Start(c, amount, note, invoice, post) =>
        KeyListFacts(w);
        if StartRefund(w.db, c, amount, note, invoice, StartBody(amount, note, invoice, post)).Done? {
          StartEffect(w, c, amount, note, invoice, post);
          KeyIsFresh(w, w.db.captures[c].order);
        }
      case _ =>
    }
  }

  /** A row that learns its refund's id was started for exactly that amount. */
  lemma UpdatedRowExact(w: World, step: Step, pk: nat, p: Payload)
    requires Inv(w) && Enabled(w, step) && HasEffect(w, step, Updated(pk, p)) && AmountsExact(w)
    ensures UpdateFromPayload(w.db.rows[pk], p).paypalId.Some? ==>
      ExactRow(w.paypal, UpdateFromPayload(w.db.rows[pk], p))
  {
    hide Inv, Enabled, Next, RowOk, KeyedOk;
    StepKeeps(w, step);
    RowFacts(w, pk);
    RowFacts(Next(w, step), pk);
    UpdatedFacts(w, step, pk, p);
  }

  lemma UpdatedFacts(w: World, step: Step, pk: nat, p: Payload)
    requires Inv(w) && Enabled(w, step) && HasEffect(w, step, Updated(pk, p)) && Inv(Next(w, step))
    ensures Next(w, step).paypal == w.paypal && Next(w, step).issued == w.issued
    ensures var row := UpdateFromPayload(w.db.rows[pk], p);
      && (row.key.Some? && row.paypalId.Some? ==> MadeFor(w.paypal, row.key, row.paypalId.value))
      && (row.paypalId.Some? ==> row.paypalId.value in w.paypal.refunds)
      && (row.key.Some? && w.db.rows[pk].paypalId.None? ==>
            row.key.value in w.issued && w.issued[row.key.value].amount == row.amount)
      && (w.db.rows[pk].paypalId.Some? && row.key.Some? ==> row.paypalId == w.db.rows[pk].paypalId)
      && (row.key.None? ==> row.paypalId == w.db.rows[pk].paypalId)
  {
    hide Inv;
    RowFacts(w, pk);
    RowFacts(Next(w, step), pk);
    if step.Adopt? {
      assert First(w.db.rows, WithPaypalId(p.id.value), w.db.nextPk) == Some(pk);
    }
  }

  lemma RowsStayExact(w: World, step: Step)
    requires Inv(w) && Enabled(w, step) && AmountsExact(w)
    ensures RowsExact(Next(w, step).db.rows, Next(w, step).paypal)
  {
    hide Inv, Enabled, Next;
    var e := StepEffect(w, step);
    StepEvolves(w, step);
    NextPkBounds(w);
    match e {
      case Updated(pk, p) =>
        UpdatedRowExact(w, step, pk, p);
        hide UpdateFromPayload;
      case Adopted(n) => NoticeFacts(w, n);
      case _ =>
    }
  }

  lemma NoticesStayExact(w: World, step: Step)
    requires Enabled(w, step) && ExactStep(w.db.captures, step) && NoticesExact(w.notices)
    ensures NoticesExact(Next(w, step).notices)
  {
  }

  lemma {:induction false} RunKeepsExact(w: World, steps: seq<Step>)
    requires Inv(w) && ValidRun(w, steps) && AmountsExact(w)
    requires forall s :: s in steps ==> ExactStep(w.db.captures, s)
    ensures AmountsExact(Run(w, steps))
    decreases |steps|
  {
    hide Inv, Next, Enabled, ExactStep;
    if steps != [] {
      assert steps[0] in steps;
      StepKeeps(w, steps[0]);
      StepRemembers(w, steps[0]);
      AnswersStayExact(w, steps[0]);
      RowsStayExact(w, steps[0]);
      NoticesStayExact(w, steps[0]);
      RunKeepsExact(Next(w, steps[0]), steps[1..]);
    }
  }

  /** With exact amounts, a capture whose outcomes are all known reserves exactly what PayPal
      refunded or is refunding. */
  lemma ReservedEqualsRefunded(captures: map<nat, Capture>, steps: seq<Step>, capture: nat)
    requires ValidRun(Initial(captures), steps)
    requires forall s :: s in steps ==> Follows(RepliesCarryIds, s) && ExactStep(captures, s)
    requires forall p :: p in Run(Initial(captures), steps).db.rows ==>
      !Matches(UnknownOutcome(capture), p, Run(Initial(captures), steps).db.rows[p])
    ensures var w := Run(Initial(captures), steps);
      Reserved(w.db, capture) == TotalOf(w.paypal.refunds, IdsBelow(w.db.rows, capture, w.db.nextPk))
  {
    hide Inv, RowOk, Next, Enabled, ExactStep, Follows;
    InitialOk(captures);
    RunKeepsExact(Initial(captures), steps);
    DoubleCountingUndone(captures, steps, capture);
  }
}
