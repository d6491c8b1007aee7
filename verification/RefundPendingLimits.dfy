/**
 Where "at most one attempt of unknown outcome" stops: exactly which steps of a run break it,
 and a run that gets there.  The code settles a reply that reports a status without an id, and
 adopts a refund whose status it does not know; both together leave two keyed rows pending.
 */
module RefundPendingLimits {
  import opened Options
  import opened RefundRows
  import opened RefundProtocol
  import opened RefundInvariant
  import opened RefundCounting
  import RequestIds

  /** A settled attempt is merged into a row still pending while another attempt of the capture is pending. */
  ghost predicate MergesIntoPending(w: World, h: Handle, p: Payload) {
    && h.pk in w.db.rows && p.id.Some?
    && var survivor := First(w.db.rows, OtherWithPaypalId(p.id.value, h.pk), w.db.nextPk);
       && survivor.Some?
       && !w.db.rows[h.pk].status.OutcomeUnknown() && w.db.rows[survivor.value].status.OutcomeUnknown()
       && exists q :: q in w.db.rows && q != h.pk && w.db.rows[q].capture == w.db.rows[survivor.value].capture
            && KeyedPending(w.db.rows[q])
  }

  /** Settling leaves at most one key of unknown outcome per capture exactly when it is not such a merge. */
  lemma SettleKeepsOnePendingIff(w: World, h: Handle, id: string, p: Payload)
    requires Inv(w) && Settling(w, h, id, p) && OnePending(w.db.rows)
    ensures SettleRefund(w.db, h, p).Done?
    ensures OnePending(SettleRefund(w.db, h, p).db.rows) <==> !MergesIntoPending(w, h, p)
  {
    hide Inv;
    SettleKeeps(w, h, id, p);
    HandleFacts(w, h);
    if h.pk in w.db.rows {
      var survivor := if p.id.Some? then First(w.db.rows, OtherWithPaypalId(p.id.value, h.pk), w.db.nextPk) else None;
      if survivor.Some? {
        MergeIff(w, h.pk, survivor.value, id);
      } else {
        var after := w.db.rows[h.pk := UpdateFromPayload(w.db.rows[h.pk], p)];
        assert forall q :: q in after ==>
          after[q].capture == w.db.rows[q].capture && (KeyedPending(after[q]) ==> KeyedPending(w.db.rows[q]));
      }
    }
  }

  lemma MergeIff(w: World, a: nat, s: nat, id: string)
    requires Inv(w) && OnePending(w.db.rows)
    requires a in w.db.rows && s in w.db.rows && a != s && MergeRows(w.db.rows, a, s).Some?
    requires MadeFor(w.paypal, w.db.rows[a].key, id) && w.db.rows[s].paypalId == Some(id)
    ensures OnePending(MergeRows(w.db.rows, a, s).value) <==>
      !(!w.db.rows[a].status.OutcomeUnknown() && w.db.rows[s].status.OutcomeUnknown()
        && exists q ::
          q in w.db.rows && q != a && w.db.rows[q].capture == w.db.rows[s].capture && KeyedPending(w.db.rows[q]))
  {
    hide Inv;
    MergePair(w, a, s, id);
    var rows, after := w.db.rows, MergeRows(w.db.rows, a, s).value;
    if !rows[a].status.OutcomeUnknown() && rows[s].status.OutcomeUnknown() {
      if q :| q in rows && q != a && rows[q].capture == rows[s].capture && KeyedPending(rows[q]) {
        assert q in after && s in after && q != s && KeyedPending(after[q]) && KeyedPending(after[s]);
      }
    } else {
      assert KeyedPending(after[s]) ==> KeyedPending(rows[a]);
    }
  }

  /** A settle, or a bind during reconciliation, that is such a merge. */
  ghost predicate Breaks(w: World, step: Step) {
    match step
    case Settle(h, p) => MergesIntoPending(w, h, p)
    case Bind(h, n) => MergesIntoPending(w, h, n.payload)
    case _ => false
  }

  lemma StepKeepsOnePendingIff(w: World, step: Step)
    requires Inv(w) && Enabled(w, step) && OnePending(w.db.rows)
    ensures OnePending(Next(w, step).db.rows) <==> !Breaks(w, step)
  {
    hide Inv;
    if step.Settle? {
      ReplyIsSettling(w, step.handle, step.payload);
      SettleKeepsOnePendingIff(w, step.handle, w.paypal.answers[step.handle.key.value].id, step.payload);
    } else if step.Bind? {
      BindIsSettling(w, step.handle, step.notice);
      SettleKeepsOnePendingIff(w, step.handle, step.notice.payload.id.value, step.notice.payload);
    } else {
      hide Next, Enabled;
      var e := StepEffect(w, step);
      if e.Merged? {
        MergeIff(w, e.attempt, e.survivor, e.id);
      } else {
        UnmergedKeepsPending(w, step, e);
      }
    }
  }

  /** At every point of the run, each capture has at most one key of unknown outcome. */
  ghost predicate AlwaysOnePending(w: World, steps: seq<Step>)
    requires ValidRun(w, steps)
    decreases |steps|
  {
    OnePending(w.db.rows) && (steps != [] ==> AlwaysOnePending(Next(w, steps[0]), steps[1..]))
  }

  ghost predicate NeverBreaks(w: World, steps: seq<Step>)
    requires ValidRun(w, steps)
    decreases |steps|
  {
    steps != [] ==> !Breaks(w, steps[0]) && NeverBreaks(Next(w, steps[0]), steps[1..])
  }

  lemma {:induction false} AlwaysIff(w: World, steps: seq<Step>)
    requires Inv(w) && OnePending(w.db.rows) && ValidRun(w, steps)
    ensures AlwaysOnePending(w, steps) <==> NeverBreaks(w, steps)
    decreases |steps|
  {
    hide Inv, Next, Enabled, OnePending, Breaks;
    if steps != [] {
      StepKeeps(w, steps[0]);
      StepKeepsOnePendingIff(w, steps[0]);
      var next := Next(w, steps[0]);
      if OnePending(next.db.rows) {
        AlwaysIff(next, steps[1..]);
      } else {
        assert !AlwaysOnePending(next, steps[1..]);
      }
    }
  }

  /** A run keeps to one key of unknown outcome per capture exactly when no settle in it merges into a pending row. */
  lemma AlwaysOnePendingIff(captures: map<nat, Capture>, steps: seq<Step>)
    requires ValidRun(Initial(captures), steps)
    ensures AlwaysOnePending(Initial(captures), steps) <==> NeverBreaks(Initial(captures), steps)
  {
    InitialOk(captures);
    AlwaysIff(Initial(captures), steps);
  }

  // ---------- a run that gets there ----------

  const ORDER: nat := 7
  const BODY := Body(Some(4), "", "")
  const CAPTURES: map<nat, Capture> := map[0 := Capture(ORDER, Some("CAPTURE"), 10, "COMPLETED", true)]
  const ANONYMOUS := Payload(None, Some(Completed), None)
  const NAMED := Payload(Some("REFUND"), Some(Completed), None)
  const UNREADABLE := Notice(0, Payload(Some("REFUND"), None, Some(4)))

  function Key(pk: nat): string { RequestIds.RefundRequestId(ORDER, pk) }

  function Attempt(pk: nat): Handle { Handle(pk, 0, Some(Key(pk)), Some(BODY)) }

  function Row(pk: nat, status: Status): Refund {
    Refund(0, Some(Key(pk)), None, status, 4, "", "", Some(BODY), [])
  }

  function AdoptedPending(): Refund {
    Refund(0, None, Some("REFUND"), Initiated, 4, "", "", None, [])
  }

  function SurvivorPending(): Refund {
    Absorb(AdoptedPending(), 0, Row(0, Completed))
  }

  function Made0(): PayPal {
    PayPal(map[Key(0) := Made("REFUND")], map["REFUND" := Remote(0, 4, Completed)])
  }

  /** One attempt started and executed by PayPal, its reply not yet delivered. */
  function Executed(): World {
    World(Db(CAPTURES, map[0 := Row(0, Initiated)], 1), Made0(), [Key(0)], map[Key(0) := Issue(0, 0, 4, Some(BODY))],
          {Attempt(0)}, {Attempt(0)}, {}, {})
  }

  /** The first attempt settled by a reply without an id, and a second one started. */
  function TwoStarted(): World {
    World(Db(CAPTURES, map[0 := Row(0, Completed), 1 := Row(1, Initiated)], 2), Made0(), [Key(0), Key(1)],
          map[Key(0) := Issue(0, 0, 4, Some(BODY)), Key(1) := Issue(1, 0, 4, Some(BODY))],
          {Attempt(0), Attempt(1)}, {Attempt(0), Attempt(1)}, {Reply(Attempt(0), ANONYMOUS)}, {})
  }

  /** The first refund adopted from a webhook whose status is unknown. */
  function AdoptedToo(): World {
    TwoStarted().(
      db := Db(CAPTURES, map[0 := Row(0, Completed), 1 := Row(1, Unresolved), 2 := AdoptedPending()], 3),
      notices := {UNREADABLE})
  }

  lemma KeysDiffer()
    ensures Key(0) != Key(1)
  {
    if Key(0) == Key(1) {
      RequestIds.RequestIdInjective(RequestIds.RefundAttempt(ORDER, 0), RequestIds.RefundAttempt(ORDER, 1));
    }
  }

  lemma Prepend(w: World, s: Step, rest: seq<Step>)
    requires Enabled(w, s) && ValidRun(Next(w, s), rest)
    ensures ValidRun(w, [s] + rest) && Run(w, [s] + rest) == Run(Next(w, s), rest)
  {
    hide Enabled, Next;
    assert ([s] + rest)[1..] == rest;
  }

  lemma FirstStart()
    ensures var s := Start(0, Some(4), "", "", true);
      && Enabled(Initial(CAPTURES), s)
      && Next(Initial(CAPTURES), s) == Executed().(paypal := PayPal(map[], map[]))
  {
    hide RequestIds.RefundRequestId;
    var w := Initial(CAPTURES);
    InitialOk(CAPTURES);
    assert First(w.db.rows, UnknownOutcome(0), 0).None?;
    StartEffect(w, 0, Some(4), "", "", true);
  }

  lemma Execution()
    ensures var w := Executed().(paypal := PayPal(map[], map[]));
      var s := Create(Attempt(0), "REFUND", 4, Completed);
      Enabled(w, s) && Next(w, s) == Executed()
  {
    hide RequestIds.RefundRequestId;
  }

  /** Executed, with the reply delivered. */
  function Settled(): World {
    Executed().(db := Db(CAPTURES, map[0 := Row(0, Completed)], 1), messages := {Reply(Attempt(0), ANONYMOUS)})
  }

  lemma AnonymousReply()
    ensures Enabled(Executed(), Respond(Attempt(0), ANONYMOUS))
    ensures var w := Next(Executed(), Respond(Attempt(0), ANONYMOUS));
      Enabled(w, Settle(Attempt(0), ANONYMOUS)) && Next(w, Settle(Attempt(0), ANONYMOUS)) == Settled()
  {
    hide RequestIds.RefundRequestId;
  }

  lemma SecondStart()
    ensures var s := Start(0, Some(4), "", "", true);
      Enabled(Settled(), s) && Next(Settled(), s) == TwoStarted()
  {
    hide RequestIds.RefundRequestId;
    KeysDiffer();
    var db := Settled().db;
    assert !Matches(UnknownOutcome(0), 0, db.rows[0]);
    assert First(db.rows, UnknownOutcome(0), 1).None?;
    assert Reserved(db, 0) == ReservedBelow(db.rows, 0, 0) + 4;
    assert Accepts(db.rows[1 := Row(1, Initiated).(key := None)], 1, Row(1, Initiated));
  }

  lemma AdoptsUnreadable()
    ensures AdoptRemoteRefund(TwoStarted().db, 0, UNREADABLE.payload) == Done(AdoptedToo().db, Some(2))
  {
    hide RequestIds.RefundRequestId;
    var db := TwoStarted().db;
    assert First(db.rows, WithPaypalId("REFUND"), 2).None?;
    assert Accepts(db.rows, 2, AdoptedPending());
  }

  lemma Adoption()
    ensures Enabled(TwoStarted(), Notify(UNREADABLE))
    ensures var w := Next(TwoStarted(), Notify(UNREADABLE));
      Enabled(w, Adopt(UNREADABLE)) && Next(w, Adopt(UNREADABLE)) == AdoptedToo()
  {
    hide RequestIds.RefundRequestId, AdoptRemoteRefund;
    AdoptsUnreadable();
  }

  lemma LateMerge()
    ensures SettleRefund(AdoptedToo().db, Attempt(0), NAMED)
         == Done(AdoptedToo().db.(rows := map[1 := Row(1, Unresolved), 2 := SurvivorPending()]), (2, false))
  {
    hide RequestIds.RefundRequestId;
    KeysDiffer();
    var db := AdoptedToo().db;
    assert Matches(OtherWithPaypalId("REFUND", 0), 2, db.rows[2]);
    assert First(db.rows, OtherWithPaypalId("REFUND", 0), 3) == Some(2);
    assert MergeRows(db.rows, 0, 2).Some?;
    assert MergeRows(db.rows, 0, 2).value == map[1 := Row(1, Unresolved), 2 := SurvivorPending()];
  }

  lemma LateReply()
    ensures Enabled(AdoptedToo(), Respond(Attempt(0), NAMED))
    ensures var w := Next(AdoptedToo(), Respond(Attempt(0), NAMED));
      && Enabled(w, Settle(Attempt(0), NAMED))
      && Next(w, Settle(Attempt(0), NAMED)).db.rows == map[1 := Row(1, Unresolved), 2 := SurvivorPending()]
  {
    hide RequestIds.RefundRequestId, SettleRefund, SurvivorPending, Row;
    KeysDiffer();
    LateMerge();
  }

  /** From two attempts started: the first refund is adopted, and a late reply merges the first attempt into it. */
  lemma LateHalf() returns (steps: seq<Step>)
    ensures ValidRun(TwoStarted(), steps)
    ensures Run(TwoStarted(), steps).db.rows == map[1 := Row(1, Unresolved), 2 := SurvivorPending()]
  {
    hide Enabled, Next, RequestIds.RefundRequestId;
    Adoption();
    LateReply();
    var named := Next(AdoptedToo(), Respond(Attempt(0), NAMED));
    hide TwoStarted, AdoptedToo, Row, SurvivorPending;
    Prepend(named, Settle(Attempt(0), NAMED), []);
    steps := [Settle(Attempt(0), NAMED)] + [];
    Prepend(AdoptedToo(), Respond(Attempt(0), NAMED), steps);
    steps := [Respond(Attempt(0), NAMED)] + steps;
    Prepend(Next(TwoStarted(), Notify(UNREADABLE)), Adopt(UNREADABLE), steps);
    steps := [Adopt(UNREADABLE)] + steps;
    Prepend(TwoStarted(), Notify(UNREADABLE), steps);
    steps := [Notify(UNREADABLE)] + steps;
  }

  lemma WholeRun() returns (steps: seq<Step>)
    ensures ValidRun(Initial(CAPTURES), steps)
    ensures Run(Initial(CAPTURES), steps).db.rows == map[1 := Row(1, Unresolved), 2 := SurvivorPending()]
  {
    hide Enabled, Next, RequestIds.RefundRequestId;
    var start, create := Start(0, Some(4), "", "", true), Create(Attempt(0), "REFUND", 4, Completed);
    FirstStart();
    Execution();
    AnonymousReply();
    SecondStart();
    hide TwoStarted, Settled, Executed, Row, SurvivorPending;
    steps := LateHalf();
    Prepend(Settled(), start, steps);
    steps := [start] + steps;
    Prepend(Next(Executed(), Respond(Attempt(0), ANONYMOUS)), Settle(Attempt(0), ANONYMOUS), steps);
    steps := [Settle(Attempt(0), ANONYMOUS)] + steps;
    Prepend(Executed(), Respond(Attempt(0), ANONYMOUS), steps);
    steps := [Respond(Attempt(0), ANONYMOUS)] + steps;
    Prepend(Executed().(paypal := PayPal(map[], map[])), create, steps);
    steps := [create] + steps;
    Prepend(Initial(CAPTURES), start, steps);
    steps := [start] + steps;
  }

  /** A reachable world in which one capture has two keys of unknown outcome. */
  lemma TwoPendingReachable()
    ensures exists steps :: ValidRun(Initial(CAPTURES), steps) && !OnePending(Run(Initial(CAPTURES), steps).db.rows)
  {
    hide Enabled, Next, ValidRun, Run, RequestIds.RefundRequestId;
    var steps := WholeRun();
    var rows := Run(Initial(CAPTURES), steps).db.rows;
    assert KeyedPending(rows[1]) && KeyedPending(rows[2]) && rows[1].capture == rows[2].capture;
    assert !OnePending(rows);
  }
}
