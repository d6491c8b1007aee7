/**
 Capture and authorization attempts (paypal_checkout/models.py, paypal_checkout/orders.py):
 a row and its key exist before the call, and an unconfirmed attempt is reused.

 One pool at a time: the direct captures of an order, the captures of an authorization, or
 the authorizations of an order.  Pools share nothing but the supply of primary keys, so
 another pool's inserts show up only as gaps.  One call runs at a time and may crash after
 any step; webhooks, reconciliation and PayPal's own execution interleave freely.
 */
module Attempts {
  import opened Options
  import opened Digits
  import RequestIds

  datatype Pool =
    | DirectCaptures(order: nat)
    | AuthorizationCaptures(order: nat, authorization: nat)
    | Authorizations(order: nat)

  function Operation(pool: Pool, pk: nat): RequestIds.Operation {
    match pool
    case DirectCaptures(order) => RequestIds.CaptureAttempt(order, pk)
    case AuthorizationCaptures(order, _) => RequestIds.CaptureAttempt(order, pk)
    case Authorizations(order) => RequestIds.AuthorizationAttempt(order, pk)
  }

  function KeyFor(pool: Pool, pk: nat): string {
    RequestIds.RequestId(Operation(pool, pk))
  }

  /** INITIATED, or any status PayPal reports. */
  datatype Status = Initiated | Reported(name: string)

  datatype Attempt = Attempt(pk: nat, key: string, paypalId: Option<string>, status: Status)

  datatype Payload = Payload(id: Option<string>, status: Option<string>)

  /** What the one running call is doing. */
  datatype Worker = Idle | Ready(pk: nat, key: string) | Waiting(pk: nat)

  datatype State = State(
    rows: seq<Attempt>,       // in primary-key order
    nextPk: nat,
    worker: Worker,
    posts: seq<string>,       // the key of every request sent
    charged: set<string>)     // the keys PayPal acted on; equal keys are one operation

  const EMPTY := State([], 0, Idle, [], {})

  datatype Step =
    | Start(gap: nat)
    | Post
    | Execute(key: string)
    | Answer(body: Option<Payload>)
    | ErrorAnswer
    | Crash
    | Reconcile(payload: Payload)
    | Webhook(id: string, payload: Payload)

  /** The first unconfirmed attempt, by primary key. */
  function Pending(rows: seq<Attempt>): (r: Option<nat>)
    ensures r.Some? ==> r.value < |rows| && rows[r.value].status.Initiated?
    ensures r.Some? ==> forall i :: 0 <= i < r.value ==> !rows[i].status.Initiated?
    ensures r.None? ==> forall i :: 0 <= i < |rows| ==> !rows[i].status.Initiated?
  {
    if rows == [] then None
    else
      var before := Pending(rows[..|rows| - 1]);
      if before.Some? then before
      else if rows[|rows| - 1].status.Initiated? then Some(|rows| - 1) else None
  }

  function Update(a: Attempt, p: Payload): Attempt {
    a.(paypalId := if p.id.Some? then p.id else a.paypalId,
       status := if p.status.Some? then Reported(p.status.value) else a.status)
  }

  function UpdateWhere(rows: seq<Attempt>, pk: nat, p: Payload): seq<Attempt> {
    seq(|rows|, i requires 0 <= i < |rows| => if rows[i].pk == pk then Update(rows[i], p) else rows[i])
  }

  function UpdateId(rows: seq<Attempt>, id: string, p: Payload): seq<Attempt> {
    seq(|rows|, i requires 0 <= i < |rows| => if rows[i].paypalId == Some(id) then Update(rows[i], p) else rows[i])
  }

  /** start_capture and start_authorization: reuse the pending attempt, or insert one and derive its key. */
  function StartAttempt(pool: Pool, rows: seq<Attempt>, pk: nat): (seq<Attempt>, Attempt) {
    var pending := Pending(rows);
    if pending.Some? then (rows, rows[pending.value])
    else
      var attempt := Attempt(pk, KeyFor(pool, pk), None, Initiated);
      (rows + [attempt], attempt)
  }

  predicate Enabled(s: State, step: Step) {
    match step
    case Start(_) => s.worker.Idle?
    case Post => s.worker.Ready?
    case Execute(key) => key in s.posts
    case Answer(_) => s.worker.Waiting?
    case ErrorAnswer => s.worker.Waiting?
    case Crash => true
    case Reconcile(_) => Pending(s.rows).Some?
    case Webhook(_, _) => true
  }

  function Next(pool: Pool, s: State, step: Step): State
    requires Enabled(s, step)
  {
    match step
    case Start(gap) =>
      var pk := s.nextPk + gap;
      var (rows, attempt) := StartAttempt(pool, s.rows, pk);
      s.(rows := rows, nextPk := if Pending(s.rows).Some? then s.nextPk else pk + 1,
        worker := Ready(attempt.pk, attempt.key))
    case Post => s.(posts := s.posts + [s.worker.key], worker := Waiting(s.worker.pk))
    case Execute(key) => s.(charged := s.charged + {key})
    case Answer(body) =>
      s.(rows := if body.Some? then UpdateWhere(s.rows, s.worker.pk, body.value) else s.rows, worker := Idle)
    case ErrorAnswer => s.(worker := Idle)
    case Crash => s.(worker := Idle)
    case Reconcile(p) => s.(rows := UpdateWhere(s.rows, s.rows[Pending(s.rows).value].pk, p))
    case Webhook(id, p) => s.(rows := UpdateId(s.rows, id, p))
  }

  predicate ValidRun(pool: Pool, s: State, steps: seq<Step>)
    decreases |steps|
  {
    steps == [] || (Enabled(s, steps[0]) && ValidRun(pool, Next(pool, s, steps[0]), steps[1..]))
  }

  function Run(pool: Pool, s: State, steps: seq<Step>): State
    requires ValidRun(pool, s, steps)
    decreases |steps|
  {
    if steps == [] then s else Run(pool, Next(pool, s, steps[0]), steps[1..])
  }

  // ---------- invariant ----------

  ghost predicate RowsOk(pool: Pool, s: State) {
    && (forall i :: 0 <= i < |s.rows| ==> s.rows[i].pk < s.nextPk && s.rows[i].key == KeyFor(pool, s.rows[i].pk))
    && (forall i, j :: 0 <= i < j < |s.rows| ==> s.rows[i].pk < s.rows[j].pk)
  }

  /** Only the newest attempt can be unconfirmed. */
  ghost predicate OnlyNewest(rows: seq<Attempt>) {
    forall i :: 0 <= i < |rows| - 1 ==> !rows[i].status.Initiated?
  }

  ghost predicate Holds(rows: seq<Attempt>, pk: nat) {
    |rows| > 0 && rows[|rows| - 1].pk == pk
  }

  ghost predicate WorkerOk(pool: Pool, s: State) {
    match s.worker
    case Idle => true
    case Ready(pk, key) => Holds(s.rows, pk) && key == KeyFor(pool, pk)
    case Waiting(pk) => Holds(s.rows, pk)
  }

  ghost predicate IsKey(rows: seq<Attempt>, key: string) {
    exists i :: 0 <= i < |rows| && rows[i].key == key
  }

  ghost predicate SentOk(s: State) {
    && (forall i :: 0 <= i < |s.posts| ==> IsKey(s.rows, s.posts[i]))
    && (forall k :: k in s.charged ==> IsKey(s.rows, k))
  }

  ghost predicate Inv(pool: Pool, s: State) {
    RowsOk(pool, s) && OnlyNewest(s.rows) && WorkerOk(pool, s) && SentOk(s)
  }

  lemma KeysStay(before: seq<Attempt>, after: seq<Attempt>, key: string)
    requires |before| <= |after| && forall i :: 0 <= i < |before| ==> after[i].key == before[i].key
    requires IsKey(before, key)
    ensures IsKey(after, key)
  {
    var i :| 0 <= i < |before| && before[i].key == key;
    assert after[i].key == key;
  }

  /** Updating rows in place: keys stay, and an attempt may only leave INITIATED. */
  ghost predicate OnlySettles(before: seq<Attempt>, after: seq<Attempt>) {
    && |after| == |before|
    && forall i :: 0 <= i < |before| ==>
         && after[i].pk == before[i].pk && after[i].key == before[i].key
         && (after[i].status.Initiated? ==> before[i].status.Initiated?)
  }

  lemma SettlingKeeps(pool: Pool, s: State, rows: seq<Attempt>)
    requires Inv(pool, s) && OnlySettles(s.rows, rows)
    ensures Inv(pool, s.(rows := rows)) && Inv(pool, s.(rows := rows, worker := Idle))
  {
    hide KeyFor;
    forall k | IsKey(s.rows, k) ensures IsKey(rows, k) {
      KeysStay(s.rows, rows, k);
    }
  }

  lemma StartKeeps(pool: Pool, s: State, gap: nat)
    requires Inv(pool, s) && s.worker.Idle?
    ensures Inv(pool, Next(pool, s, Start(gap)))
  {
    hide KeyFor, IsKey;
    var rows := Next(pool, s, Start(gap)).rows;
    forall k | IsKey(s.rows, k) ensures IsKey(rows, k) {
      KeysStay(s.rows, rows, k);
    }
  }

  lemma WorkerKeyStored(pool: Pool, s: State)
    requires Inv(pool, s) && s.worker.Ready?
    ensures IsKey(s.rows, s.worker.key)
  {
    hide KeyFor;
    assert s.rows[|s.rows| - 1].key == s.worker.key;
  }

  lemma StepKeeps(pool: Pool, s: State, step: Step)
    requires Inv(pool, s) && Enabled(s, step)
    ensures Inv(pool, Next(pool, s, step))
  {
    hide KeyFor, IsKey, Pending, StartAttempt;
    match step {
      case Start(gap) => StartKeeps(pool, s, gap);
      case Post =>
        WorkerKeyStored(pool, s);
      case Answer(body) =>
        SettlingKeeps(pool, s, Next(pool, s, step).rows);
      case Reconcile(p) =>
        SettlingKeeps(pool, s, Next(pool, s, step).rows);
      case Webhook(id, p) => SettlingKeeps(pool, s, Next(pool, s, step).rows);
      case _ =>
    }
  }

  lemma {:induction false} RunKeeps(pool: Pool, s: State, steps: seq<Step>)
    requires Inv(pool, s) && ValidRun(pool, s, steps)
    ensures Inv(pool, Run(pool, s, steps))
    decreases |steps|
  {
    hide Inv, Enabled, Next;
    if steps != [] {
      StepKeeps(pool, s, steps[0]);
      RunKeeps(pool, Next(pool, s, steps[0]), steps[1..]);
    }
  }

  // ---------- what it means ----------

  /** At most one attempt is unconfirmed, whatever crashed, and no two attempts share a key. */
  lemma AtMostOneUnconfirmed(pool: Pool, steps: seq<Step>, i: nat, j: nat)
    requires ValidRun(pool, EMPTY, steps)
    requires i < j < |Run(pool, EMPTY, steps).rows|
    ensures var rows := Run(pool, EMPTY, steps).rows;
      && !(rows[i].status.Initiated? && rows[j].status.Initiated?)
      && rows[i].key != rows[j].key
  {
    RunKeeps(pool, EMPTY, steps);
    var rows := Run(pool, EMPTY, steps).rows;
    if rows[i].key == rows[j].key {
      RequestIds.RequestIdInjective(Operation(pool, rows[i].pk), Operation(pool, rows[j].pk));
    }
  }

  /** A post made while an attempt is unconfirmed carries that attempt's stored key. */
  lemma PostCarriesStoredKey(pool: Pool, steps: seq<Step>, i: nat)
    requires ValidRun(pool, EMPTY, steps) && Enabled(Run(pool, EMPTY, steps), Post)
    requires i < |Run(pool, EMPTY, steps).rows| && Run(pool, EMPTY, steps).rows[i].status.Initiated?
    ensures var s := Run(pool, EMPTY, steps);
      Next(pool, s, Post).posts == s.posts + [s.rows[i].key]
  {
    RunKeeps(pool, EMPTY, steps);
  }

  /** Recovery: a call started while an attempt is unconfirmed takes up that attempt and its key,
      and issues no other. */
  lemma RecoveryReusesKey(pool: Pool, steps: seq<Step>, gap: nat, i: nat)
    requires ValidRun(pool, EMPTY, steps) && Enabled(Run(pool, EMPTY, steps), Start(gap))
    requires i < |Run(pool, EMPTY, steps).rows| && Run(pool, EMPTY, steps).rows[i].status.Initiated?
    ensures var s := Run(pool, EMPTY, steps);
      && Next(pool, s, Start(gap)).rows == s.rows
      && Next(pool, s, Start(gap)).worker == Ready(s.rows[i].pk, s.rows[i].key)
  {
    RunKeeps(pool, EMPTY, steps);
  }

  /** Attempts whose outcome was recorded. */
  function Outcomes(rows: seq<Attempt>): nat {
    if rows == [] then 0
    else Outcomes(rows[..|rows| - 1]) + if rows[|rows| - 1].status.Initiated? then 0 else 1
  }

  lemma {:induction false} AllRecorded(rows: seq<Attempt>)
    requires forall i :: 0 <= i < |rows| ==> !rows[i].status.Initiated?
    ensures Outcomes(rows) == |rows|
  {
    if rows != [] {
      AllRecorded(rows[..|rows| - 1]);
    }
  }

  lemma {:induction false} KeysCounted(rows: seq<Attempt>, keys: set<string>)
    requires forall k :: k in keys ==> IsKey(rows, k)
    ensures |keys| <= |rows|
    decreases |rows|
  {
    if rows == [] {
      if k :| k in keys {
        assert IsKey(rows, k);
      }
    } else {
      var last, rest := rows[|rows| - 1], rows[..|rows| - 1];
      forall k | k in keys - {last.key} ensures IsKey(rest, k) {
        assert IsKey(rows, k);
        var i :| 0 <= i < |rows| && rows[i].key == k;
        assert rest[i].key == k;
      }
      KeysCounted(rest, keys - {last.key});
      assert keys <= (keys - {last.key}) + {last.key};
      if last.key in keys {
        assert |keys| == |keys - {last.key}| + 1;
      } else {
        assert keys - {last.key} == keys;
      }
    }
  }

  /** However often calls crash and are repeated, PayPal charges at most once more than outcomes were recorded. */
  lemma ChargesBounded(pool: Pool, steps: seq<Step>)
    requires ValidRun(pool, EMPTY, steps)
    ensures var s := Run(pool, EMPTY, steps);
      |s.charged| <= |s.rows| <= Outcomes(s.rows) + 1
  {
    RunKeeps(pool, EMPTY, steps);
    var s := Run(pool, EMPTY, steps);
    KeysCounted(s.rows, s.charged);
    if s.rows != [] {
      AllRecorded(s.rows[..|s.rows| - 1]);
    }
  }

  // ---------- one call, row by row ----------

  /** How far a call gets: it dies before the request, gets no usable answer, or an answer with or
      without the object. */
  datatype Fate = DiesEarly | Unanswered | Answered(body: Option<Payload>)

  function CallSteps(fate: Fate): seq<Step> {
    match fate
    case DiesEarly => [Start(0), Crash]
    case Unanswered => [Start(0), Post, ErrorAnswer]
    case Answered(body) => [Start(0), Post, Answer(body)]
  }

  lemma CallRuns(pool: Pool, s: State, fate: Fate)
    requires s.worker.Idle?
    ensures ValidRun(pool, s, CallSteps(fate))
    ensures var (rows, attempt) := StartAttempt(pool, s.rows, s.nextPk);
      var started := s.(rows := rows, nextPk := if Pending(s.rows).Some? then s.nextPk else s.nextPk + 1);
      Run(pool, s, CallSteps(fate)) ==
        match fate
        case DiesEarly => started
        case Unanswered => started.(posts := s.posts + [attempt.key])
        case Answered(body) =>
          started.(posts := s.posts + [attempt.key],
                   rows := if body.Some? then UpdateWhere(rows, attempt.pk, body.value) else rows)
  {
    var s1 := Next(pool, s, Start(0));
    if fate.DiesEarly? {
      Prepend(pool, s1, Crash, []);
      Prepend(pool, s, Start(0), [Crash] + []);
      assert CallSteps(fate) == [Start(0)] + ([Crash] + []);
    } else {
      var s2 := Next(pool, s1, Post);
      var last := if fate.Unanswered? then ErrorAnswer else Answer(fate.body);
      Prepend(pool, s2, last, []);
      Prepend(pool, s1, Post, [last] + []);
      Prepend(pool, s, Start(0), [Post] + ([last] + []));
      assert CallSteps(fate) == [Start(0)] + ([Post] + ([last] + []));
    }
  }

  lemma Prepend(pool: Pool, s: State, step: Step, rest: seq<Step>)
    requires Enabled(s, step) && ValidRun(pool, Next(pool, s, step), rest)
    ensures ValidRun(pool, s, [step] + rest)
    ensures Run(pool, s, [step] + rest) == Run(pool, Next(pool, s, step), rest)
  {
    hide Enabled, Next;
    assert ([step] + rest)[1..] == rest;
  }

  // ---------- what the rows show ----------

  /** The row shows PayPal's answer, as far as it says anything, and keeps its key. */
  predicate Shows(before: Attempt, p: Payload, after: Attempt) {
    && after.pk == before.pk && after.key == before.key
    && after.paypalId == (if p.id.Some? then p.id else before.paypalId)
    && after.status == (if p.status.Some? then Reported(p.status.value) else before.status)
  }

  /** Only the row at this position may differ. */
  predicate OnlyAt(before: seq<Attempt>, after: seq<Attempt>, i: nat) {
    |after| == |before| && forall j :: 0 <= j < |before| && j != i ==> after[j] == before[j]
  }

  lemma UpdateWhereShows(pool: Pool, s: State, i: nat, p: Payload)
    requires RowsOk(pool, s) && i < |s.rows|
    ensures var after := UpdateWhere(s.rows, s.rows[i].pk, p);
      OnlyAt(s.rows, after, i) && Shows(s.rows[i], p, after[i])
  {}

  /**
   A call records what PayPal answered on the attempt it posted, and on no other: the id and the status, where the
   answer has them.  Without a usable answer the attempt stays unconfirmed, and an attempt that was unconfirmed
   before is the one taken up.
   */
  lemma CallRecords(pool: Pool, s: State, fate: Fate) returns (i: nat)
    requires Inv(pool, s) && s.worker.Idle?
    ensures ValidRun(pool, s, CallSteps(fate))
    ensures var started, after := StartAttempt(pool, s.rows, s.nextPk).0, Run(pool, s, CallSteps(fate));
      && i < |started| && started[i].status == Initiated
      && |s.rows| <= |started| <= |s.rows| + 1 && started[..|s.rows|] == s.rows
      && ((exists j :: 0 <= j < |s.rows| && s.rows[j].status == Initiated) <==> |started| == |s.rows|)
      && after.posts == (if fate.DiesEarly? then s.posts else s.posts + [started[i].key])
      && OnlyAt(started, after.rows, i)
      && if fate.Answered? && fate.body.Some? then Shows(started[i], fate.body.value, after.rows[i])
         else after.rows[i] == started[i]
  {
    i := StartedAt(pool, s);
    CallRuns(pool, s, fate);
    StartKeeps(pool, s, 0);
    var next := Next(pool, s, Start(0));
    assert RowsOk(pool, next);
    hide Inv, KeyFor, Run, ValidRun, StartAttempt, UpdateWhere, RowsOk, Shows, Pending;
    if fate.Answered? && fate.body.Some? {
      UpdateWhereShows(pool, next, i, fate.body.value);
    }
  }

  /** The attempt a call takes up: the unconfirmed one, or a new row at the end. */
  lemma StartedAt(pool: Pool, s: State) returns (i: nat)
    requires Inv(pool, s) && s.worker.Idle?
    ensures var (rows, attempt) := StartAttempt(pool, s.rows, s.nextPk);
      && i < |rows| && rows[i] == attempt && attempt.status == Initiated
      && |s.rows| <= |rows| <= |s.rows| + 1 && rows[..|s.rows|] == s.rows
      && ((exists j :: 0 <= j < |s.rows| && s.rows[j].status == Initiated) <==> |rows| == |s.rows|)
      && rows == Next(pool, s, Start(0)).rows
  {
    hide Inv, KeyFor;
    i := if Pending(s.rows).Some? then Pending(s.rows).value else |s.rows|;
  }

  /** Reconciliation records on the unconfirmed attempt, a webhook on the rows with its id; both as PayPal says. */
  lemma NewsRecorded(pool: Pool, s: State, id: string, p: Payload)
    requires Inv(pool, s)
    ensures Enabled(s, Reconcile(p)) <==> exists i :: 0 <= i < |s.rows| && s.rows[i].status == Initiated
    ensures forall i :: 0 <= i < |s.rows| && s.rows[i].status == Initiated ==>
      && OnlyAt(s.rows, Next(pool, s, Reconcile(p)).rows, i)
      && Shows(s.rows[i], p, Next(pool, s, Reconcile(p)).rows[i])
    ensures var after := Next(pool, s, Webhook(id, p)).rows;
      && |after| == |s.rows|
      && forall i :: 0 <= i < |s.rows| ==>
           if s.rows[i].paypalId == Some(id) then Shows(s.rows[i], p, after[i]) else after[i] == s.rows[i]
  {
    hide KeyFor;
    forall i | 0 <= i < |s.rows| && s.rows[i].status == Initiated
      ensures Pending(s.rows) == Some(i) && OnlyAt(s.rows, Next(pool, s, Reconcile(p)).rows, i)
      ensures Shows(s.rows[i], p, Next(pool, s, Reconcile(p)).rows[i])
    {
      UpdateWhereShows(pool, s, i, p);
    }
  }

  /** A key tells which row of which kind it belongs to: pools of captures and of authorizations never share one. */
  lemma KeysAcrossPools(p: Pool, q: Pool, a: nat, b: nat)
    ensures KeyFor(p, a) ==
      "order:" + Render(p.order) + (if p.Authorizations? then ":authorize:" else ":capture:") + Render(a)
    ensures KeyFor(p, a) == KeyFor(q, b) ==>
      a == b && p.order == q.order && (p.Authorizations? <==> q.Authorizations?)
  {
    if KeyFor(p, a) == KeyFor(q, b) {
      RequestIds.RequestIdInjective(Operation(p, a), Operation(q, b));
    }
  }

  class Table {
    const pool: Pool
    var rows: seq<Attempt>
    var nextPk: nat
    var wire: seq<string>

    constructor (pool: Pool)
      ensures this.pool == pool && View({}) == EMPTY
    {
      this.pool := pool;
      rows, nextPk, wire := [], 0, [];
    }

    function View(charged: set<string>): State
      reads this
    {
      State(rows, nextPk, Idle, wire, charged)
    }

    /** start_capture / start_authorization: insert, then give the row the key its pk determines. */
    method Begin() returns (attempt: Attempt)
      modifies this`rows, this`nextPk
      ensures (rows, attempt) == StartAttempt(pool, old(rows), old(nextPk))
      ensures nextPk == if Pending(old(rows)).Some? then old(nextPk) else old(nextPk) + 1
    {
      var pending := Pending(rows);
      if pending.Some? {
        return rows[pending.value];
      }
      attempt := Attempt(nextPk, "", None, Initiated);
      rows := rows + [attempt];
      attempt := attempt.(key := KeyFor(pool, attempt.pk));
      rows := rows[|rows| - 1 := attempt];
      assert rows == old(rows) + [attempt];
      nextPk := nextPk + 1;
    }

    /** capture_order, authorize_order and capture_authorization: start, post with the row's key, record the answer. */
    method Call(fate: Fate, ghost charged: set<string>)
      modifies this
      ensures ValidRun(pool, old(View(charged)), CallSteps(fate))
      ensures View(charged) == Run(pool, old(View(charged)), CallSteps(fate))
    {
      CallRuns(pool, View(charged), fate);
      var attempt := Begin();
      if fate.DiesEarly? {
        return;
      }
      wire := wire + [attempt.key];
      if fate.Answered? && fate.body.Some? {
        rows := UpdateWhere(rows, attempt.pk, fate.body.value);
      }
    }
  }
}
