/**
 Every interleaving of the refund protocol: workers that start, post, retry and settle
 refunds, PayPal executing and replaying requests, webhooks that adopt remote refunds,
 and messages that are lost, repeated or late.

 Messages are kept for ever once sent: losing one is never delivering it, and a late or
 repeated delivery is delivering it at any later moment.  Each transaction block is one step.
 */
module RefundProtocol {
  import opened Options
  import opened RefundRows
  import RequestIds

  // ---------- PayPal ----------

  /** A refund as PayPal records it. */
  datatype Remote = Remote(capture: nat, amount: nat, status: Status)

  /** What PayPal answered to a key, for good: the refund it made, or a terminal refusal. */
  datatype Answer = Made(id: string) | Refused

  datatype PayPal = PayPal(answers: map<string, Answer>, refunds: map<string, Remote>)

  // ---------- the world ----------

  /** The attempt a key was issued for: its first row, and what it asks of which capture. */
  datatype Issue = Issue(pk: nat, capture: nat, amount: nat, body: Option<Body>)

  datatype Message = Reply(handle: Handle, payload: Payload) | Refusal(handle: Handle)

  datatype Notice = Notice(capture: nat, payload: Payload)

  datatype World = World(
    db: Db,
    paypal: PayPal,
    keys: seq<string>,
    issued: map<string, Issue>,
    handles: set<Handle>,
    posted: set<Handle>,
    messages: set<Message>,
    notices: set<Notice>)

  function Initial(captures: map<nat, Capture>): World {
    World(Db(captures, map[], 0), PayPal(map[], map[]), [], map[], {}, {}, {}, {})
  }

  datatype Step =
    // workers
    | Start(capture: nat, amount: Option<nat>, note: string, invoice: string, post: bool)
    | Load(pk: nat)
    | Retry(handle: Handle)
    | Settle(handle: Handle, payload: Payload)
    | Fail(handle: Handle)
    | Adopt(notice: Notice)
    | Bind(handle: Handle, notice: Notice)
    | MergeByHand(handle: Handle, survivor: nat)
    // PayPal and the network
    | Create(handle: Handle, id: string, made: nat, status: Status)
    | Refuse(handle: Handle)
    | Respond(handle: Handle, payload: Payload)
    | RespondRefusal(handle: Handle)
    | Progress(id: string, status: Status)
    | Dashboard(id: string, remote: Remote)
    | Notify(notice: Notice)

  /** What a request body asks PayPal to refund. */
  function Asked(captures: map<nat, Capture>, capture: nat, body: Body): nat
    requires capture in captures
  {
    if body.amount.Some? then body.amount.value else captures[capture].amount
  }

  /** A payload that tells the truth about the refund `id` at this moment, as far as it says anything. */
  predicate Describes(paypal: PayPal, id: string, p: Payload) {
    && id in paypal.refunds
    && (p.id.Some? ==> p.id.value == id)
    && (p.status.Some? ==> p.status.value == paypal.refunds[id].status)
    && (p.amount.Some? ==> p.amount.value == paypal.refunds[id].amount)
  }

  predicate MadeFor(paypal: PayPal, key: Option<string>, id: string) {
    key.Some? && key.value in paypal.answers && paypal.answers[key.value] == Made(id)
  }

  /** The rows a caller may merge by hand: PayPal made the survivor's refund for the attempt's key. */
  predicate SameOperation(w: World, attempt: nat, survivor: nat) {
    attempt in w.db.rows && survivor in w.db.rows && attempt != survivor && w.db.rows[survivor].paypalId.Some? ==>
      MadeFor(w.paypal, w.db.rows[attempt].key, w.db.rows[survivor].paypalId.value)
  }

  /** When a step can be taken; for PayPal's steps, the rules the code relies on. */
  predicate Enabled(w: World, step: Step) {
    match step
    case Start(c, _, _, _, post) => post ==> c in w.db.captures && w.db.captures[c].paypalId.Some?
    case Load(pk) => pk in w.db.rows
    case Retry(h) => h in w.handles
    case Settle(h, p) => Reply(h, p) in w.messages
    case Fail(h) => Refusal(h) in w.messages
    case Adopt(n) => n in w.notices
    case Bind(h, n) =>
      h in w.handles && n in w.notices && n.payload.id.Some? && MadeFor(w.paypal, h.key, n.payload.id.value)
    case MergeByHand(h, s) => h in w.handles && SameOperation(w, h.pk, s)
    case Create(h, id, made, status) =>
      && h in w.posted && h.key.Some? && h.body.Some? && h.capture in w.db.captures
      && h.key.value !in w.paypal.answers
      && id !in w.paypal.refunds
      && made <= Asked(w.db.captures, h.capture, h.body.value)
      && !status.OutcomeUnknown()
    case Refuse(h) => h in w.posted && h.key.Some? && h.key.value !in w.paypal.answers
    case Respond(h, p) =>
      && h in w.posted && h.key.Some? && h.key.value in w.paypal.answers
      && w.paypal.answers[h.key.value].Made?
      && Describes(w.paypal, w.paypal.answers[h.key.value].id, p)
    case RespondRefusal(h) =>
      && h in w.posted && h.key.Some? && h.key.value in w.paypal.answers
      && w.paypal.answers[h.key.value].Refused?
    case Progress(id, status) =>
      id in w.paypal.refunds && !w.paypal.refunds[id].status.Dead() && !status.OutcomeUnknown()
    case Dashboard(id, r) =>
      && id !in w.paypal.refunds && r.capture in w.db.captures
      && r.amount <= w.db.captures[r.capture].amount && !r.status.OutcomeUnknown()
    case Notify(n) =>
      && n.payload.id.Some? && Describes(w.paypal, n.payload.id.value, n.payload)
      && n.capture == w.paypal.refunds[n.payload.id.value].capture
  }

  function Committing<T>(w: World, outcome: Outcome<T>): World {
    w.(db := TableAfter(w.db, outcome))
  }

  function StartBody(amount: Option<nat>, note: string, invoice: string, post: bool): Option<Body> {
    if post then Some(Body(amount, note, invoice)) else None
  }

  function AfterStart(w: World, c: nat, amount: Option<nat>, note: string, invoice: string, post: bool): World {
    match StartRefund(w.db, c, amount, note, invoice, StartBody(amount, note, invoice, post))
    case Raised(_) => w
    case Done(db, pk) =>
      if pk in db.rows && db.rows[pk].key.Some? then
        var row := db.rows[pk];
        var h := HandleOf(pk, row);
        w.(db := db,
           keys := w.keys + [row.key.value],
           issued := w.issued[row.key.value := Issue(pk, c, row.amount, row.body)],
           handles := w.handles + {h},
           posted := if post then w.posted + {h} else w.posted)
      else w
  }

  function AfterRetry(w: World, h: Handle): World {
    match RetryRefund(w.db, h)
    case Post(retried) => w.(handles := w.handles + {retried}, posted := w.posted + {retried})
    case _ => w
  }

  function Next(w: World, step: Step): World
    requires Enabled(w, step)
  {
    match step
    case Start(c, amount, note, invoice, post) => AfterStart(w, c, amount, note, invoice, post)
    case Load(pk) => w.(handles := w.handles + {HandleOf(pk, w.db.rows[pk])})
    case Retry(h) => AfterRetry(w, h)
    case Settle(h, p) => Committing(w, SettleRefund(w.db, h, p))
    case Fail(h) => Committing(w, MarkRefundFailed(w.db, h))
    case Adopt(n) => Committing(w, AdoptRemoteRefund(w.db, n.capture, n.payload))
    case Bind(h, n) => Committing(w, SettleRefund(w.db, h, n.payload))
    case MergeByHand(h, s) => Committing(w, MergeRefundAttempt(w.db, h, s))
    case Create(h, id, made, status) =>
      w.(paypal := PayPal(w.paypal.answers[h.key.value := Made(id)],
                          w.paypal.refunds[id := Remote(h.capture, made, status)]))
    case Refuse(h) => w.(paypal := w.paypal.(answers := w.paypal.answers[h.key.value := Refused]))
    case Respond(h, p) => w.(messages := w.messages + {Reply(h, p)})
    case RespondRefusal(h) => w.(messages := w.messages + {Refusal(h)})
    case Progress(id, status) =>
      w.(paypal := w.paypal.(refunds := w.paypal.refunds[id := w.paypal.refunds[id].(status := status)]))
    case Dashboard(id, r) => w.(paypal := w.paypal.(refunds := w.paypal.refunds[id := r]))
    case Notify(n) => w.(notices := w.notices + {n})
  }

  predicate ValidRun(w: World, steps: seq<Step>)
    decreases |steps|
  {
    steps == [] || (Enabled(w, steps[0]) && ValidRun(Next(w, steps[0]), steps[1..]))
  }

  function Run(w: World, steps: seq<Step>): World
    requires ValidRun(w, steps)
    decreases |steps|
  {
    if steps == [] then w else Run(Next(w, steps[0]), steps[1..])
  }

  // ---------- money at PayPal ----------

  /** What PayPal holds as refunded, or may still refund, under a key. */
  function Liability(paypal: PayPal, issued: map<string, Issue>, key: string): nat {
    if key !in paypal.answers then (if key in issued then issued[key].amount else 0)
    else LiveUnder(paypal, key)
  }

  /** What PayPal has refunded under a key and not taken back. */
  function LiveUnder(paypal: PayPal, key: string): nat {
    if key !in paypal.answers then 0
    else
      match paypal.answers[key]
      case Refused => 0
      case Made(id) =>
        if id in paypal.refunds && !paypal.refunds[id].status.Dead() then paypal.refunds[id].amount else 0
  }

  function Liabilities(paypal: PayPal, issued: map<string, Issue>, keys: seq<string>, capture: nat): nat {
    if keys == [] then 0
    else
      var k := keys[|keys| - 1];
      Liabilities(paypal, issued, keys[..|keys| - 1], capture)
        + if k in issued && issued[k].capture == capture then Liability(paypal, issued, k) else 0
  }

  /** What PayPal has refunded on a capture under one key, and not taken back. */
  function LiveOn(paypal: PayPal, key: string, capture: nat): nat {
    if key in paypal.answers && paypal.answers[key].Made?
       && paypal.answers[key].id in paypal.refunds && paypal.refunds[paypal.answers[key].id].capture == capture
    then LiveUnder(paypal, key) else 0
  }

  /** Everything PayPal has live-refunded on a capture under the given keys. */
  function LiveRefunded(paypal: PayPal, keys: seq<string>, capture: nat): nat {
    if keys == [] then 0
    else LiveRefunded(paypal, keys[..|keys| - 1], capture) + LiveOn(paypal, keys[|keys| - 1], capture)
  }

  // ---------- the invariant ----------

  ghost predicate Carries(rows: map<nat, Refund>, pk: nat, key: string) {
    pk in rows && rows[pk].key == Some(key)
  }

  ghost predicate IssueOk(captures: map<nat, Capture>, nextPk: nat, key: string, issue: Issue) {
    && issue.pk < nextPk && issue.capture in captures && issue.amount <= captures[issue.capture].amount
    && key == RequestIds.RefundRequestId(captures[issue.capture].order, issue.pk)
    && (issue.body.Some? ==> Asked(captures, issue.capture, issue.body.value) == issue.amount)
  }

  ghost predicate KeysOk(db: Db, keys: seq<string>, issued: map<string, Issue>) {
    && (forall i :: 0 <= i < |keys| ==> keys[i] in issued)
    && (forall i, j :: 0 <= i < j < |keys| ==> keys[i] != keys[j])
    && (forall k :: k in issued ==> k in keys && IssueOk(db.captures, db.nextPk, k, issued[k]))
  }

  /** Every issued key is on some row. */
  ghost predicate Carried(rows: map<nat, Refund>, issued: map<string, Issue>) {
    forall k :: k in issued ==> exists pk :: Carries(rows, pk, k)
  }

  /** The key was finally refused, or its refund finally cancelled. */
  predicate Final(paypal: PayPal, key: string) {
    && key in paypal.answers
    && match paypal.answers[key]
       case Refused => true
       case Made(id) => id in paypal.refunds && paypal.refunds[id].status.Dead()
  }

  ghost predicate KeyedOk(paypal: PayPal, issued: map<string, Issue>, pk: nat, row: Refund)
    requires row.key.Some?
  {
    var k := row.key.value;
    && k in issued && issued[k].capture == row.capture && issued[k].body == row.body
    && (row.paypalId.None? ==> issued[k].pk == pk && issued[k].amount == row.amount)
    && (row.paypalId.Some? ==> MadeFor(paypal, row.key, row.paypalId.value))
    && (row.status.Dead() ==> Final(paypal, k))
    && (issued[k].pk == pk || Snapshot(issued[k].pk, Some(k), row.body, issued[k].amount) in row.merged)
  }

  ghost predicate BoundOk(paypal: PayPal, row: Refund)
    requires row.paypalId.Some?
  {
    var id := row.paypalId.value;
    && id in paypal.refunds && paypal.refunds[id].capture == row.capture
    && paypal.refunds[id].amount <= row.amount
    && (row.status.Dead() ==> paypal.refunds[id].status.Dead())
  }

  ghost predicate RowOk(paypal: PayPal, issued: map<string, Issue>, pk: nat, row: Refund) {
    && (row.key.Some? ==> KeyedOk(paypal, issued, pk, row))
    && (row.key.None? ==> row.paypalId.Some? && row.body.None?)
    && (row.paypalId.Some? ==> BoundOk(paypal, row))
  }

  ghost predicate RowsOk(rows: map<nat, Refund>, paypal: PayPal, issued: map<string, Issue>) {
    forall pk :: pk in rows ==> RowOk(paypal, issued, pk, rows[pk])
  }

  ghost predicate AnswerOk(paypal: PayPal, issued: map<string, Issue>, key: string, id: string) {
    && key in issued && id in paypal.refunds
    && paypal.refunds[id].capture == issued[key].capture && paypal.refunds[id].amount <= issued[key].amount
  }

  ghost predicate PayPalOk(captures: map<nat, Capture>, paypal: PayPal, issued: map<string, Issue>) {
    && (forall k :: k in paypal.answers ==> k in issued)
    && (forall k :: k in paypal.answers && paypal.answers[k].Made? ==>
      AnswerOk(paypal, issued, k, paypal.answers[k].id))
    && (forall k, l :: k in paypal.answers && l in paypal.answers && k != l && paypal.answers[k].Made? ==>
          paypal.answers[k] != paypal.answers[l])
    && (forall id :: id in paypal.refunds ==>
          && !paypal.refunds[id].status.OutcomeUnknown() && paypal.refunds[id].capture in captures
          && paypal.refunds[id].amount <= captures[paypal.refunds[id].capture].amount)
  }

  ghost predicate HandleOk(db: Db, issued: map<string, Issue>, h: Handle) {
    && h.pk < db.nextPk && h.capture in db.captures
    && (h.pk in db.rows ==> db.rows[h.pk].capture == h.capture)
    && (h.key.None? ==> h.pk in db.rows && db.rows[h.pk].paypalId.Some?)
    && (h.key.Some? ==>
          && h.key.value in issued && issued[h.key.value].capture == h.capture && issued[h.key.value].body == h.body
          && (h.pk in db.rows ==> db.rows[h.pk].key == h.key))
  }

  ghost predicate HandlesOk(db: Db, issued: map<string, Issue>, handles: set<Handle>, posted: set<Handle>) {
    && (forall h :: h in handles ==> HandleOk(db, issued, h))
    && posted <= handles
    && (forall h :: h in posted ==> h.key.Some? && h.body.Some?)
  }

  /** A payload whose news may be old, but of which a final status still holds. */
  ghost predicate Trusted(paypal: PayPal, id: string, p: Payload) {
    && id in paypal.refunds
    && (p.id.Some? ==> p.id.value == id)
    && (p.status.Some? ==>
      !p.status.value.OutcomeUnknown() && (p.status.value.Dead() ==> paypal.refunds[id].status.Dead()))
    && (p.amount.Some? ==> p.amount.value == paypal.refunds[id].amount)
  }

  ghost predicate MessageOk(paypal: PayPal, posted: set<Handle>, m: Message) {
    && m.handle in posted && m.handle.key.Some? && m.handle.key.value in paypal.answers
    && match paypal.answers[m.handle.key.value]
       case Refused => m.Refusal?
       case Made(id) => m.Reply? && Trusted(paypal, id, m.payload)
  }

  ghost predicate NoticeOk(paypal: PayPal, n: Notice) {
    && n.payload.id.Some? && Trusted(paypal, n.payload.id.value, n.payload)
    && paypal.refunds[n.payload.id.value].capture == n.capture
  }

  ghost predicate NewsOk(paypal: PayPal, posted: set<Handle>, messages: set<Message>, notices: set<Notice>) {
    && (forall m :: m in messages ==> MessageOk(paypal, posted, m))
    && (forall n :: n in notices ==> NoticeOk(paypal, n))
  }

  ghost predicate BudgetOk(captures: map<nat, Capture>, paypal: PayPal, issued: map<string, Issue>, keys: seq<string>) {
    forall c :: c in captures ==> Liabilities(paypal, issued, keys, c) <= captures[c].amount
  }

  ghost predicate Inv(w: World) {
    && TableOk(w.db)
    && KeysOk(w.db, w.keys, w.issued)
    && Carried(w.db.rows, w.issued)
    && RowsOk(w.db.rows, w.paypal, w.issued)
    && PayPalOk(w.db.captures, w.paypal, w.issued)
    && HandlesOk(w.db, w.issued, w.handles, w.posted)
    && NewsOk(w.paypal, w.posted, w.messages, w.notices)
    && BudgetOk(w.db.captures, w.paypal, w.issued, w.keys)
  }
}
