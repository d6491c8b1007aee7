/**
 When a refund pass takes its capture out of INITIATED: exactly when PayPal reports one of the capture's
 refunds completed, or reports no status for one recorded as completed, and a completed refund of the
 capture has moved money by then.
 */
module RefundStatuses {
  import opened Options
  import opened RefundRows
  import opened RefundReconcile
  import opened OrderReconcile
  import opened RefundPasses

  /** The capture has a completed refund of some amount: what sync_refund_status tests. */
  ghost predicate MoneyBack(rows: map<nat, Refund>, capture: nat) {
    exists pk :: pk in rows && CompletedAt(rows, capture, pk) > 0
  }

  /** The capture has a row of this refund that is completed once the payload is applied. */
  ghost predicate CompletesRow(rows: map<nat, Refund>, capture: nat, p: Payload) {
    exists pk :: pk in rows && rows[pk].capture == capture && rows[pk].paypalId == p.id
      && UpdateFromPayload(rows[pk], p).status.Completed?
  }

  /** This payload finds its row completed, at a moment when the capture has money back. */
  ghost predicate SettlesAt(rows: map<nat, Refund>, capture: nat, payloads: seq<Payload>, i: nat)
    requires i < |payloads|
  {
    CompletesRow(rows, capture, payloads[i]) && MoneyBack(RefreshRows(rows, capture, payloads[..i + 1]), capture)
  }

  /** Some payload does, while the known rows are refreshed. */
  ghost predicate RefreshSettles(rows: map<nat, Refund>, capture: nat, payloads: seq<Payload>) {
    exists i :: 0 <= i < |payloads| && SettlesAt(rows, capture, payloads, i)
  }

  /** A refund without a row gets one that records some amount: the bound attempt's, or the one it is adopted with. */
  ghost predicate Moves(db: Db, capture: nat, payloads: seq<Payload>, p: Payload) {
    if Binds(db, capture, payloads) then
      exists pk :: pk in Locals(RefreshRows(db.rows, capture, payloads), capture) && db.rows[pk].amount > 0
    else capture in db.captures && AdoptedInsert(db, capture, p).amount > 0
  }

  /** A refund without a row is reported completed, and it moved money or another refund did. */
  ghost predicate UnmatchedSettles(db: Db, capture: nat, payloads: seq<Payload>) {
    var unmatched := Unmatched(db.rows, capture, payloads);
    exists j :: 0 <= j < |unmatched| && unmatched[j].status == Some(Completed)
      && (Moves(db, capture, payloads, unmatched[j]) || MoneyBack(RefreshRows(db.rows, capture, payloads), capture))
  }

  /**
   PayPal reports one of the capture's refunds completed, or says nothing of one recorded as completed, and by
   then a completed refund of the capture has moved money.
   */
  ghost predicate Settles(db: Db, capture: nat, payloads: seq<Payload>) {
    RefreshSettles(db.rows, capture, payloads) || UnmatchedSettles(db, capture, payloads)
  }

  lemma {:induction false} CompletedPositive(rows: map<nat, Refund>, capture: nat, bound: nat)
    ensures CompletedBelow(rows, capture, bound) > 0 <==>
      exists pk: nat :: pk < bound && pk in rows && CompletedAt(rows, capture, pk) > 0
  {
    if bound > 0 {
      CompletedPositive(rows, capture, bound - 1);
      hide CompletedAt;
      assert CompletedAt(rows, capture, bound - 1) > 0 ==> bound - 1 in rows by {
        CompletedIsRow(rows, capture, bound - 1);
      }
    }
  }

  lemma CompletedIsRow(rows: map<nat, Refund>, capture: nat, pk: nat)
    ensures CompletedAt(rows, capture, pk) > 0 ==> pk in rows
  {}

  /** A sync leaves INITIATED exactly when the capture has money back. */
  lemma SyncSettlesIff(db: Db, capture: nat)
    requires capture in db.captures && forall pk :: pk in db.rows ==> pk < db.nextPk
    ensures SyncStatus(db, capture).captures.Keys == db.captures.Keys
    ensures SyncStatus(db, capture).captures[capture].status == INITIATED <==>
      db.captures[capture].status == INITIATED && !MoneyBack(db.rows, capture)
  {
    CompletedPositive(db.rows, capture, db.nextPk);
    hide CompletedAt, CompletedBelow;
    assert "REFUNDED"[0] == 'R' && "PARTIALLY_REFUNDED"[0] == 'P' && INITIATED[0] == 'I';
  }

  // ---------- refreshing ----------

  /** One payload of the refresh loop, on a row no earlier payload named. */
  lemma RefreshOneSettles(db: Db, before: Db, capture: nat, p: Payload)
    requires TableOk(db) && capture in db.captures && p.id.Some? && before.nextPk == db.nextPk
    requires KeepsIds(db.rows, before.rows) && KeepsIds(before.rows, db.rows) && Advances(db.captures, before.captures)
    requires forall pk :: pk in db.rows && db.rows[pk].paypalId == p.id ==> before.rows[pk] == db.rows[pk]
    ensures var after := RefreshOne(before, capture, p);
      capture in after.captures &&
      (after.captures[capture].status == INITIATED <==>
        before.captures[capture].status == INITIATED
        && !(CompletesRow(db.rows, capture, p) && MoneyBack(after.rows, capture)))
  {
    FirstKept(db, before, p.id.value);
    FirstKnows(db, capture, p);
    var pk := First(db.rows, WithPaypalId(p.id.value), db.nextPk);
    if pk.Some? && db.rows[pk.value].capture == capture {
      var row := UpdateFromPayload(db.rows[pk.value], p);
      var after := before.(rows := before.rows[pk.value := row]);
      assert CompletesRow(db.rows, capture, p) <==> row.status.Completed?;
      hide MoneyBack, CompletesRow, SyncStatus;
      if row.status.Completed? {
        SyncSettlesIff(after, capture);
      }
    } else {
      assert !Knows(db.rows, capture, p);
    }
  }

  lemma {:induction false} RefreshSettlesIff(db: Db, capture: nat, payloads: seq<Payload>)
    requires TableOk(db) && DistinctIds(payloads) && capture in db.captures
    requires forall i :: 0 <= i < |payloads| ==> payloads[i].id.Some?
    requires db.captures[capture].status == INITIATED
    ensures RefreshSynced(db, capture, payloads).captures.Keys == db.captures.Keys
    ensures RefreshSynced(db, capture, payloads).captures[capture].status == INITIATED
       <==> !RefreshSettles(db.rows, capture, payloads)
  {
    if payloads == [] {
      return;
    }
    var n := |payloads| - 1;
    var front, before, p := payloads[..n], RefreshSynced(db, capture, payloads[..n]), payloads[n];
    RefreshSettlesIff(db, capture, front);
    RefreshedSoFar(db, capture, payloads);
    RefreshSettlesStep(db.rows, capture, payloads);
    RefreshAdvances(db, capture, payloads);
    RefreshStrips(db, capture, payloads);
    StripFacts(db);
    StripFacts(RefreshSynced(db, capture, payloads));
    hide TableOk, Advances, CompletesRow, RefreshSettles, DistinctIds, KeepsIds, RefreshOne, MoneyBack, Strip,
      RefreshRows;
    RefreshOneSettles(db, before, capture, p);
  }

  /** Before the last payload is applied, its refund's row is as it was. */
  lemma RefreshedSoFar(db: Db, capture: nat, payloads: seq<Payload>)
    requires TableOk(db) && DistinctIds(payloads) && payloads != []
    requires forall i :: 0 <= i < |payloads| ==> payloads[i].id.Some?
    ensures var n := |payloads| - 1;
      var before := RefreshSynced(db, capture, payloads[..n]);
      && before.nextPk == db.nextPk && Advances(db.captures, before.captures)
      && KeepsIds(db.rows, before.rows) && KeepsIds(before.rows, db.rows)
      && forall pk :: pk in db.rows && db.rows[pk].paypalId == payloads[n].id ==> before.rows[pk] == db.rows[pk]
  {
    var n := |payloads| - 1;
    var front, before := payloads[..n], RefreshSynced(db, capture, payloads[..n]);
    RefreshStrips(db, capture, front);
    RefreshKeeps(db, capture, front);
    RefreshAdvances(db, capture, front);
    StripFacts(before);
    StripFacts(db);
    hide RefreshSynced, TableOk, Advances, Strip;
    forall pk | pk in db.rows && db.rows[pk].paypalId == payloads[n].id ensures before.rows[pk] == db.rows[pk] {
      RefreshedUnnamed(db.rows[pk], front);
    }
  }

  lemma RefreshSettlesStep(rows: map<nat, Refund>, capture: nat, payloads: seq<Payload>)
    requires payloads != []
    ensures var n := |payloads| - 1;
      RefreshSettles(rows, capture, payloads) <==>
        || RefreshSettles(rows, capture, payloads[..n])
        || (CompletesRow(rows, capture, payloads[n]) && MoneyBack(RefreshRows(rows, capture, payloads), capture))
  {
    var n := |payloads| - 1;
    var front := payloads[..n];
    hide CompletesRow, MoneyBack, RefreshRows;
    assert payloads[..n + 1] == payloads;
    assert SettlesAt(rows, capture, payloads, n) <==>
      CompletesRow(rows, capture, payloads[n]) && MoneyBack(RefreshRows(rows, capture, payloads), capture);
    hide SettlesAt;
    if i :| 0 <= i < n && SettlesAt(rows, capture, payloads, i) {
      SettlesAtPrefix(rows, capture, payloads, n, i);
    }
    if i :| 0 <= i < n && SettlesAt(rows, capture, front, i) {
      SettlesAtPrefix(rows, capture, payloads, n, i);
    }
  }

  lemma SettlesAtPrefix(rows: map<nat, Refund>, capture: nat, payloads: seq<Payload>, n: nat, i: nat)
    requires i < n <= |payloads|
    ensures SettlesAt(rows, capture, payloads[..n], i) <==> SettlesAt(rows, capture, payloads, i)
  {
    assert payloads[..n][i] == payloads[i] && payloads[..n][..i + 1] == payloads[..i + 1];
  }

  // ---------- adopting and binding ----------

  /** A refund reported completed, adopted with some amount. */
  ghost predicate AdoptsMoney(db: Db, capture: nat, unmatched: seq<Payload>)
    requires capture in db.captures
  {
    exists j :: 0 <= j < |unmatched| && unmatched[j].status == Some(Completed)
      && AdoptedInsert(db, capture, unmatched[j]).amount > 0
  }

  ghost predicate SomeCompleted(payloads: seq<Payload>) {
    exists i :: 0 <= i < |payloads| && payloads[i].status == Some(Completed)
  }

  /** Adopting a refund no row carries: what it adds to the money back, and when the status follows. */
  lemma AdoptOneSettles(db: Db, capture: nat, p: Payload)
    requires capture in db.captures && p.id.Some?
    requires forall pk :: pk in db.rows ==> pk < db.nextPk && db.rows[pk].paypalId != p.id
    ensures var after := TableAfter(db, AdoptRemoteRefund(db, capture, p));
      var synced := if AdoptSignal(after, p) != [] then SyncStatus(after, capture) else after;
      && synced.captures.Keys == db.captures.Keys && synced.rows == after.rows
      && (MoneyBack(after.rows, capture) <==> MoneyBack(db.rows, capture) || AdoptsMoney(db, capture, [p]))
      && (synced.captures[capture].status == INITIATED <==>
            db.captures[capture].status == INITIATED
            && !(p.status == Some(Completed) && MoneyBack(after.rows, capture)))
  {
    AdoptUnheard(db, capture, p);
    var after, pk := TableAfter(db, AdoptRemoteRefund(db, capture, p)), db.nextPk;
    assert after.rows[pk] == AdoptedRow(db, capture, p);
    assert First(after.rows, WithPaypalId(p.id.value), after.nextPk) == Some(pk);
    AdoptionBrings(db, capture, p);
    hide AdoptRemoteRefund, FlagOthers, MoneyBack;
    if p.status == Some(Completed) {
      SyncSettlesIff(after, capture);
    }
  }

  lemma AdoptionBrings(db: Db, capture: nat, p: Payload)
    requires capture in db.captures && forall pk :: pk in db.rows ==> pk < db.nextPk
    ensures var after := FlagOthers(db.rows[db.nextPk := AdoptedRow(db, capture, p)], capture, db.nextPk);
      MoneyBack(after, capture) <==> MoneyBack(db.rows, capture) || AdoptsMoney(db, capture, [p])
  {
    var after := FlagOthers(db.rows[db.nextPk := AdoptedRow(db, capture, p)], capture, db.nextPk);
    assert forall pk :: pk in db.rows ==> CompletedAt(after, capture, pk) == CompletedAt(db.rows, capture, pk);
    assert CompletedAt(after, capture, db.nextPk) > 0 <==> AdoptsMoney(db, capture, [p]) by {
      assert [p][0] == p;
    }
    hide FlagOthers, CompletedAt, AdoptsMoney;
    assert after.Keys == db.rows.Keys + {db.nextPk} by {
      FlaggedKeys(db.rows, capture, db.nextPk, AdoptedRow(db, capture, p));
    }
    if MoneyBack(db.rows, capture) {
      var pk :| pk in db.rows && CompletedAt(db.rows, capture, pk) > 0;
      assert pk in after && CompletedAt(after, capture, pk) > 0;
    }
    if AdoptsMoney(db, capture, [p]) {
      assert db.nextPk in after;
    }
  }

  lemma {:induction false} AdoptSettlesIff(db: Db, capture: nat, unmatched: seq<Payload>)
    requires TableOk(db) && capture in db.captures
    requires Unheard(db.rows, unmatched) && DistinctIds(unmatched)
    requires forall i :: 0 <= i < |unmatched| ==> unmatched[i].id.Some?
    ensures AdoptSynced(db, capture, unmatched).db.captures.Keys == db.captures.Keys
    ensures MoneyBack(AdoptSynced(db, capture, unmatched).db.rows, capture)
       <==> MoneyBack(db.rows, capture) || AdoptsMoney(db, capture, unmatched)
    ensures AdoptSynced(db, capture, unmatched).db.captures[capture].status == INITIATED <==>
      && db.captures[capture].status == INITIATED && !AdoptsMoney(db, capture, unmatched)
      && !(SomeCompleted(unmatched) && MoneyBack(db.rows, capture))
  {
    if unmatched == [] {
      return;
    }
    var n := |unmatched| - 1;
    var front, before, p := unmatched[..n], AdoptSynced(db, capture, unmatched[..n]).db, unmatched[n];
    AdoptSettlesIff(db, capture, front);
    AdoptAdvances(db, capture, front);
    AdoptedUnheard(db, capture, unmatched);
    SomeCompletedStep(unmatched);
    AdoptsMoneyStep(db, before, capture, unmatched);
    hide TableOk, Unheard, AdoptRemoteRefund, AdoptSignal, SomeCompleted, MoneyBack, AdoptsMoney, Advances;
    AdoptOneSettles(before, capture, p);
  }

  lemma AdoptsMoneyStep(db: Db, before: Db, capture: nat, payloads: seq<Payload>)
    requires payloads != [] && capture in db.captures && Advances(db.captures, before.captures)
    ensures var n := |payloads| - 1;
      && (AdoptsMoney(db, capture, payloads) <==>
            AdoptsMoney(db, capture, payloads[..n]) || AdoptsMoney(before, capture, [payloads[n]]))
      && (AdoptsMoney(before, capture, [payloads[n]]) ==> payloads[n].status == Some(Completed))
      && (AdoptsMoney(db, capture, payloads[..n]) ==> SomeCompleted(payloads[..n]))
  {
    var n := |payloads| - 1;
    var front, last := payloads[..n], payloads[n];
    assert AdoptedInsert(before, capture, last).amount == AdoptedInsert(db, capture, last).amount;
    assert AdoptsMoney(before, capture, [last]) <==>
      last.status == Some(Completed) && AdoptedInsert(db, capture, last).amount > 0 by {
      assert [last][0] == last;
    }
    hide AdoptedInsert, Advances;
    if AdoptsMoney(db, capture, front) {
      var j :| 0 <= j < n && front[j].status == Some(Completed) && AdoptedInsert(db, capture, front[j]).amount > 0;
      assert payloads[j] == front[j];
    }
    if AdoptsMoney(db, capture, payloads) {
      var j :| 0 <= j <= n && payloads[j].status == Some(Completed)
        && AdoptedInsert(db, capture, payloads[j]).amount > 0;
      assert j < n ==> front[j] == payloads[j];
    }
  }

  lemma SomeCompletedStep(payloads: seq<Payload>)
    requires payloads != []
    ensures var n := |payloads| - 1;
      SomeCompleted(payloads) <==> SomeCompleted(payloads[..n]) || payloads[n].status == Some(Completed)
  {
    var n := |payloads| - 1;
    if i :| 0 <= i < n && payloads[..n][i].status == Some(Completed) {
      assert payloads[i] == payloads[..n][i];
    }
    if i :| 0 <= i < n && payloads[i].status == Some(Completed) {
      assert payloads[..n][i] == payloads[i];
    }
  }

  /** Before the last refund of the list is adopted, no row carries it. */
  lemma AdoptedUnheard(db: Db, capture: nat, unmatched: seq<Payload>)
    requires TableOk(db) && capture in db.captures && unmatched != []
    requires Unheard(db.rows, unmatched) && DistinctIds(unmatched)
    requires forall i :: 0 <= i < |unmatched| ==> unmatched[i].id.Some?
    ensures var n := |unmatched| - 1;
      var before := AdoptSynced(db, capture, unmatched[..n]).db;
      forall pk :: pk in before.rows ==> pk < before.nextPk && before.rows[pk].paypalId != unmatched[n].id
  {
    var n := |unmatched| - 1;
    var front := unmatched[..n];
    var before, plain := AdoptSynced(db, capture, front).db, AdoptAll(Strip(db), capture, front).db;
    AdoptAllStrips(db, capture, front);
    StripFacts(before);
    StripFacts(db);
    StripTable(db);
    assert OnlyHere(Strip(db).rows, capture, front);
    AdoptAllGathers(Strip(db), capture, front);
    assert before.rows == plain.rows && before.nextPk == plain.nextPk;
    hide AdoptSynced, AdoptAll, Strip;
    forall pk | pk in plain.rows ensures plain.rows[pk].paypalId != unmatched[n].id {
      if pk in db.rows {
        assert db.rows[pk].paypalId != unmatched[n].id;
      } else if i :| 0 <= i < n && front[i].id == plain.rows[pk].paypalId {
        assert unmatched[i].id != unmatched[n].id;
      }
    }
  }

  /** Binding the one unconfirmed attempt to a refund no row carries. */
  lemma BindSettles(db: Db, pk: nat, p: Payload)
    requires TableOk(db) && pk in db.rows && db.rows[pk].status.Initiated? && p.id.Some?
    requires forall other :: other in db.rows ==> db.rows[other].paypalId != p.id
    ensures SettleSynced(db, pk, p).captures.Keys == db.captures.Keys
    ensures var capture := db.rows[pk].capture;
      SettleSynced(db, pk, p).captures[capture].status == INITIATED <==>
        && db.captures[capture].status == INITIATED
        && !(p.status == Some(Completed) && (db.rows[pk].amount > 0 || MoneyBack(db.rows, capture)))
  {
    SettleUnheard(db, pk, p);
    var row, capture := UpdateFromPayload(db.rows[pk], p), db.rows[pk].capture;
    var after := db.(rows := db.rows[pk := row]);
    if row.status.Completed? {
      SyncSettlesIff(after, capture);
      assert forall q :: q in db.rows && q != pk ==>
        CompletedAt(after.rows, capture, q) == CompletedAt(db.rows, capture, q);
      assert CompletedAt(after.rows, capture, pk) == row.amount && CompletedAt(db.rows, capture, pk) == 0;
      hide CompletedAt, TableOk, SyncStatus, SettleRefund;
      if MoneyBack(db.rows, capture) {
        var q :| q in db.rows && CompletedAt(db.rows, capture, q) > 0;
        assert q in after.rows && CompletedAt(after.rows, capture, q) > 0;
      }
      if row.amount > 0 {
        assert pk in after.rows;
      }
    }
  }

  // ---------- the pass ----------

  /** What the refresh loop hands to the rest of the pass. */
  lemma RefreshHandsOver(db: Db, capture: nat, payloads: seq<Payload>)
    requires TableOk(db) && PayloadsOk(db, capture, payloads) && DistinctIds(payloads)
    ensures var refreshed, unmatched := RefreshSynced(db, capture, payloads), Unmatched(db.rows, capture, payloads);
      && TableOk(refreshed) && refreshed.rows == RefreshRows(db.rows, capture, payloads)
      && capture in refreshed.captures && refreshed.captures[capture].amount == db.captures[capture].amount
      && refreshed.captures.Keys == db.captures.Keys
      && Unheard(refreshed.rows, unmatched) && DistinctIds(unmatched)
      && forall i :: 0 <= i < |unmatched| ==> unmatched[i].id.Some?
  {
    hide RefreshRows, Unmatched, RefreshSynced;
    RefreshAdvances(db, capture, payloads);
    RefreshedUnheard(db, capture, payloads);
    UnmatchedDistinct(db.rows, capture, payloads);
  }

  /** After the refresh loop the constraints hold, and no row carries an unmatched refund. */
  lemma RefreshedUnheard(db: Db, capture: nat, payloads: seq<Payload>)
    requires TableOk(db) && PayloadsOk(db, capture, payloads)
    ensures var refreshed, unmatched := RefreshSynced(db, capture, payloads), Unmatched(db.rows, capture, payloads);
      && TableOk(refreshed) && refreshed.rows == RefreshRows(db.rows, capture, payloads)
      && Unheard(refreshed.rows, unmatched) && forall i :: 0 <= i < |unmatched| ==> unmatched[i].id.Some?
  {
    hide RefreshRows, Unmatched, RefreshSynced, Strip, Unheard;
    StripFacts(db);
    StripFacts(RefreshSynced(db, capture, payloads));
    UnmatchedUnheard(db, capture, payloads);
    RefreshStrips(db, capture, payloads);
    RefreshedTable(db, capture, payloads);
  }

  lemma BindCase(db: Db, capture: nat, payloads: seq<Payload>)
    requires TableOk(db) && PayloadsOk(db, capture, payloads) && DistinctIds(payloads)
    requires Binds(db, capture, payloads)
    ensures var refreshed := RefreshSynced(db, capture, payloads);
      && capture in refreshed.captures && RunPass(db, capture, payloads).db.captures.Keys == refreshed.captures.Keys
      && (RunPass(db, capture, payloads).db.captures[capture].status == INITIATED <==>
            refreshed.captures[capture].status == INITIATED && !UnmatchedSettles(db, capture, payloads))
  {
    hide RefreshRows, Unmatched, RefreshSynced, TableOk, SettleSynced, SettleRefund, PayloadsOk, RefreshSignals,
      DistinctIds, SyncStatus, MoneyBack, UnmatchedSettles;
    RefreshHandsOver(db, capture, payloads);
    var refreshed, unmatched := RefreshSynced(db, capture, payloads), Unmatched(db.rows, capture, payloads);
    assert |Locals(refreshed.rows, capture)| == 1 && |unmatched| == 1;
    OnlyLocal(refreshed, capture);
    var l := FirstLocal(refreshed, capture).value;
    assert l in Locals(refreshed.rows, capture);
    LocalAmount(db, capture, payloads, l);
    OneUnmatched(db, capture, payloads, l);
    hide Locals, FirstLocal;
    BindSettles(refreshed, l, unmatched[0]);
  }

  lemma OneUnmatched(db: Db, capture: nat, payloads: seq<Payload>, l: nat)
    requires Binds(db, capture, payloads) && Locals(RefreshRows(db.rows, capture, payloads), capture) == {l}
    requires l in db.rows
    ensures UnmatchedSettles(db, capture, payloads) <==>
      && Unmatched(db.rows, capture, payloads)[0].status == Some(Completed)
      && (db.rows[l].amount > 0 || MoneyBack(RefreshRows(db.rows, capture, payloads), capture))
  {
    hide RefreshRows, Unmatched, MoneyBack, Locals;
  }

  lemma AdoptCase(db: Db, capture: nat, payloads: seq<Payload>)
    requires TableOk(db) && PayloadsOk(db, capture, payloads) && DistinctIds(payloads)
    requires !Binds(db, capture, payloads)
    ensures var refreshed := RefreshSynced(db, capture, payloads);
      && capture in refreshed.captures && RunPass(db, capture, payloads).db.captures.Keys == refreshed.captures.Keys
      && (RunPass(db, capture, payloads).db.captures[capture].status == INITIATED <==>
            refreshed.captures[capture].status == INITIATED && !UnmatchedSettles(db, capture, payloads))
  {
    hide RefreshRows, Unmatched, RefreshSynced, TableOk, AdoptSynced, SettleSynced, SettleRefund, PayloadsOk,
      RefreshSignals, Unheard, DistinctIds, MoneyBack, UnmatchedSettles;
    RefreshHandsOver(db, capture, payloads);
    UnmatchedAdopted(db, RefreshSynced(db, capture, payloads), capture, payloads);
    AdoptSettlesIff(RefreshSynced(db, capture, payloads), capture, Unmatched(db.rows, capture, payloads));
  }

  lemma UnmatchedAdopted(db: Db, refreshed: Db, capture: nat, payloads: seq<Payload>)
    requires !Binds(db, capture, payloads) && capture in db.captures && capture in refreshed.captures
    requires refreshed.captures[capture].amount == db.captures[capture].amount
    ensures var unmatched := Unmatched(db.rows, capture, payloads);
      UnmatchedSettles(db, capture, payloads) <==>
        || AdoptsMoney(refreshed, capture, unmatched)
        || (SomeCompleted(unmatched) && MoneyBack(RefreshRows(db.rows, capture, payloads), capture))
  {
    hide RefreshRows, Unmatched, MoneyBack, Binds;
    var unmatched := Unmatched(db.rows, capture, payloads);
    assert forall p: Payload {:trigger AdoptedInsert(db, capture, p)} ::
      AdoptedInsert(db, capture, p).amount == AdoptedInsert(refreshed, capture, p).amount;
    assert forall p: Payload {:trigger Moves(db, capture, payloads, p)} ::
      Moves(db, capture, payloads, p) <==> AdoptedInsert(db, capture, p).amount > 0;
    hide AdoptedInsert, Moves;
    forall j | 0 <= j < |unmatched|
      ensures Moves(db, capture, payloads, unmatched[j]) <==> AdoptedInsert(refreshed, capture, unmatched[j]).amount > 0
    {
    }
  }

  /**
   A pass over a capture that is INITIATED leaves it INITIATED exactly when no refund is found completed on it
   while it has money back.
   */
  lemma PassSettlesIff(db: Db, capture: nat, payloads: seq<Payload>)
    requires TableOk(db) && PayloadsOk(db, capture, payloads) && DistinctIds(payloads)
    requires db.captures[capture].status == INITIATED
    ensures RunPass(db, capture, payloads).db.captures.Keys == db.captures.Keys
    ensures RunPass(db, capture, payloads).db.captures[capture].status == INITIATED <==>
      !Settles(db, capture, payloads)
  {
    RefreshSettlesIff(db, capture, payloads);
    hide RunPass, RefreshSynced, TableOk, RefreshSettles, UnmatchedSettles, PayloadsOk, Binds, DistinctIds;
    if Binds(db, capture, payloads) {
      BindCase(db, capture, payloads);
    } else {
      AdoptCase(db, capture, payloads);
    }
  }

  lemma LocalAmount(db: Db, capture: nat, payloads: seq<Payload>, pk: nat)
    requires TableOk(db) && pk in Locals(RefreshRows(db.rows, capture, payloads), capture)
    ensures pk in db.rows && RefreshRows(db.rows, capture, payloads)[pk].amount == db.rows[pk].amount
  {
    RefreshKeeps(db, capture, payloads);
    RefreshedAmount(db.rows[pk], payloads);
  }

  lemma {:induction false} RefreshedAmount(row: Refund, payloads: seq<Payload>)
    ensures Refreshed(row, payloads).amount == row.amount
  {
    if payloads != [] {
      RefreshedAmount(row, payloads[..|payloads| - 1]);
    }
  }

  // ---------- refunds that all move money ----------

  /** Refunds of the capture are of positive amounts, and so is every amount PayPal reports. */
  ghost predicate Positive(db: Db, capture: nat, payloads: seq<Payload>) {
    && capture in db.captures && db.captures[capture].amount > 0
    && (forall pk :: pk in db.rows && db.rows[pk].capture == capture ==> db.rows[pk].amount > 0)
    && (forall i :: 0 <= i < |payloads| && payloads[i].amount.Some? ==> payloads[i].amount.value > 0)
  }

  /** PayPal reports the refund completed, or says nothing of a refund recorded as completed. */
  ghost predicate Completes(rows: map<nat, Refund>, capture: nat, payloads: seq<Payload>) {
    exists i ::
      0 <= i < |payloads| && (payloads[i].status == Some(Completed) || CompletesRow(rows, capture, payloads[i]))
  }

  lemma CompletedRowBrings(db: Db, capture: nat, payloads: seq<Payload>, i: nat)
    requires DistinctIds(payloads) && Positive(db, capture, payloads)
    requires i < |payloads| && payloads[i].id.Some? && CompletesRow(db.rows, capture, payloads[i])
    ensures RefreshSettles(db.rows, capture, payloads)
  {
    var pk :| pk in db.rows && db.rows[pk].capture == capture && db.rows[pk].paypalId == payloads[i].id
      && UpdateFromPayload(db.rows[pk], payloads[i]).status.Completed?;
    var rows := RefreshRows(db.rows, capture, payloads[..i + 1]);
    assert payloads[..i + 1][..i] == payloads[..i];
    RefreshedUnnamed(db.rows[pk], payloads[..i]);
    assert pk in rows && rows[pk] == UpdateFromPayload(db.rows[pk], payloads[i]);
    assert CompletedAt(rows, capture, pk) > 0;
    assert SettlesAt(db.rows, capture, payloads, i);
  }

  lemma UnmatchedMoves(db: Db, capture: nat, payloads: seq<Payload>, p: Payload)
    requires TableOk(db) && Positive(db, capture, payloads) && p in payloads
    ensures Moves(db, capture, payloads, p)
  {
    var k :| 0 <= k < |payloads| && payloads[k] == p;
    if Binds(db, capture, payloads) {
      var pk :| pk in Locals(RefreshRows(db.rows, capture, payloads), capture);
      RefreshKeeps(db, capture, payloads);
    }
  }

  /** When every refund moves money, a capture is settled exactly when PayPal completes one of its refunds. */
  lemma SettlesWhenPositive(db: Db, capture: nat, payloads: seq<Payload>)
    requires TableOk(db) && PayloadsOk(db, capture, payloads) && DistinctIds(payloads)
    requires Positive(db, capture, payloads)
    ensures Settles(db, capture, payloads) <==> Completes(db.rows, capture, payloads)
  {
    var unmatched := Unmatched(db.rows, capture, payloads);
    UnmatchedMembers(db.rows, capture, payloads);
    hide Unmatched, RefreshRows, MoneyBack, CompletesRow, Moves, Positive;
    if j :| 0 <= j < |unmatched| && unmatched[j].status == Some(Completed) {
      assert unmatched[j] in unmatched;
      var i :| 0 <= i < |payloads| && payloads[i] == unmatched[j];
    }
    if i :| 0 <= i < |payloads|
            && (payloads[i].status == Some(Completed) || CompletesRow(db.rows, capture, payloads[i])) {
      CompletionSettles(db, capture, payloads, i);
    }
  }

  lemma CompletionSettles(db: Db, capture: nat, payloads: seq<Payload>, i: nat)
    requires TableOk(db) && PayloadsOk(db, capture, payloads) && DistinctIds(payloads)
    requires Positive(db, capture, payloads) && i < |payloads|
    requires payloads[i].status == Some(Completed) || CompletesRow(db.rows, capture, payloads[i])
    ensures Settles(db, capture, payloads)
  {
    var unmatched, p := Unmatched(db.rows, capture, payloads), payloads[i];
    UnmatchedMembers(db.rows, capture, payloads);
    hide Unmatched, RefreshRows, MoneyBack, Moves, Positive, RefreshSettles;
    if Knows(db.rows, capture, p) {
      assert CompletesRow(db.rows, capture, p) by {
        var pk :| pk in db.rows && db.rows[pk].capture == capture && db.rows[pk].paypalId == p.id;
      }
      CompletedRowBrings(db, capture, payloads, i);
    } else {
      assert p in unmatched;
      var j :| 0 <= j < |unmatched| && unmatched[j] == p;
      UnmatchedMoves(db, capture, payloads, p);
    }
  }

  // ---------- the loop over the captures ----------

  lemma {:induction false} RefreshElsewhere(db: Db, capture: nat, payloads: seq<Payload>, other: nat)
    requires other != capture && other in db.captures
    ensures other in RefreshSynced(db, capture, payloads).captures
    ensures RefreshSynced(db, capture, payloads).captures[other] == db.captures[other]
  {
    if payloads != [] {
      RefreshElsewhere(db, capture, payloads[..|payloads| - 1], other);
    }
  }

  lemma {:induction false} AdoptElsewhere(db: Db, capture: nat, payloads: seq<Payload>, other: nat)
    requires other != capture && other in db.captures
    ensures other in AdoptSynced(db, capture, payloads).db.captures
    ensures AdoptSynced(db, capture, payloads).db.captures[other] == db.captures[other]
  {
    if payloads != [] {
      var before, last := AdoptSynced(db, capture, payloads[..|payloads| - 1]).db, payloads[|payloads| - 1];
      AdoptElsewhere(db, capture, payloads[..|payloads| - 1], other);
      assert TableAfter(before, AdoptRemoteRefund(before, capture, last)).captures == before.captures;
    }
  }

  /** A pass leaves every other capture as it is, status included. */
  lemma PassElsewhere(db: Db, capture: nat, payloads: seq<Payload>, other: nat)
    requires TableOk(db) && PayloadsOk(db, capture, payloads) && other != capture && other in db.captures
    ensures other in RunPass(db, capture, payloads).db.captures
    ensures RunPass(db, capture, payloads).db.captures[other] == db.captures[other]
  {
    hide RefreshSynced, AdoptSynced, RefreshRows, Unmatched, TableOk, PayloadsOk, SettleRefund, RefreshSignals;
    var refreshed, unmatched := RefreshSynced(db, capture, payloads), Unmatched(db.rows, capture, payloads);
    RefreshElsewhere(db, capture, payloads, other);
    AdoptElsewhere(refreshed, capture, unmatched, other);
    RefreshedUnheard(db, capture, payloads);
    var local := FirstLocal(refreshed, capture);
    if local.Some? && unmatched != [] {
      SettleUnheard(refreshed, local.value, unmatched[0]);
    }
  }

  lemma PassesFrame(db: Db, owner: string -> nat, groups: seq<Group>, capture: nat)
    requires TableOk(db) && Owned(db, owner) && GroupsOk(db, owner, groups)
    requires forall i :: 0 <= i < |groups| ==> groups[i].capture != capture
    ensures Under(RunPasses(db, groups).db.rows, capture) == Under(db.rows, capture)
  {
    hide TableOk, Under, RunPasses, PassAll, Strip, Owned, GroupsOk;
    StripFacts(db);
    StripTable(db);
    StripGroups(db, owner, groups);
    PassesStrip(db, owner, groups);
    PassAllFrame(Strip(db), owner, groups, capture);
    StripFacts(RunPasses(db, groups).db);
  }

  lemma {:induction false} PassesElsewhere(db: Db, owner: string -> nat, groups: seq<Group>, capture: nat)
    requires TableOk(db) && Owned(db, owner) && GroupsOk(db, owner, groups) && capture in db.captures
    requires forall i :: 0 <= i < |groups| ==> groups[i].capture != capture
    ensures var after := RunPasses(db, groups).db;
      && capture in after.captures && after.captures[capture] == db.captures[capture]
      && Under(after.rows, capture) == Under(db.rows, capture)
  {
    PassesFrame(db, owner, groups, capture);
    hide TableOk, Under, RunPass, Owned;
    if groups != [] {
      var before, last := groups[..|groups| - 1], groups[|groups| - 1];
      assert GroupsOk(db, owner, before);
      PassesElsewhere(db, owner, before, capture);
      LastGroupOk(db, owner, groups);
      PassElsewhere(RunPasses(db, before).db, last.capture, last.payloads, capture);
    }
  }

  /** The table the last group's pass starts from. */
  lemma LastGroupOk(db: Db, owner: string -> nat, groups: seq<Group>)
    requires TableOk(db) && Owned(db, owner) && GroupsOk(db, owner, groups) && groups != []
    ensures var mid, last := RunPasses(db, groups[..|groups| - 1]).db, groups[|groups| - 1];
      TableOk(mid) && Owned(mid, owner) && PayloadsOk(mid, last.capture, last.payloads)
  {
    var before, last := groups[..|groups| - 1], groups[|groups| - 1];
    var mid := RunPasses(db, before).db;
    assert GroupsOk(db, owner, before) && GroupOk(db, owner, last);
    PassesStrip(db, owner, before);
    StripTable(db);
    StripGroups(db, owner, before);
    PassAllKeeps(Strip(db), owner, before);
    StripFacts(mid);
    StripFacts(db);
    hide TableOk, RunPasses, PassAll, Strip;
    GroupPayloadsOk(mid, owner, last);
  }

  lemma CompletesRowLocal(rows: map<nat, Refund>, other: map<nat, Refund>, capture: nat, p: Payload)
    requires Under(rows, capture) == Under(other, capture) && CompletesRow(rows, capture, p)
    ensures CompletesRow(other, capture, p)
  {
    var pk :| pk in rows && rows[pk].capture == capture && rows[pk].paypalId == p.id
      && UpdateFromPayload(rows[pk], p).status.Completed?;
    assert pk in Under(rows, capture) && Under(other, capture)[pk] == rows[pk];
  }

  lemma MoneyBackLocal(rows: map<nat, Refund>, other: map<nat, Refund>, capture: nat, payloads: seq<Payload>)
    requires Under(rows, capture) == Under(other, capture)
    requires MoneyBack(RefreshRows(rows, capture, payloads), capture)
    ensures MoneyBack(RefreshRows(other, capture, payloads), capture)
  {
    var mine, theirs := RefreshRows(rows, capture, payloads), RefreshRows(other, capture, payloads);
    var pk :| pk in mine && CompletedAt(mine, capture, pk) > 0;
    RefreshedKeeps(rows[pk], payloads);
    assert pk in Under(rows, capture) && Under(other, capture)[pk] == rows[pk];
    hide Refreshed;
    assert theirs[pk] == mine[pk] && CompletedAt(theirs, capture, pk) > 0;
  }

  lemma MovesLocal(db: Db, other: Db, capture: nat, payloads: seq<Payload>, p: Payload)
    requires TableOk(db) && Under(db.rows, capture) == Under(other.rows, capture)
    requires capture in db.captures && capture in other.captures && other.captures[capture] == db.captures[capture]
    requires Moves(db, capture, payloads, p)
    ensures Moves(other, capture, payloads, p)
  {
    BindsLocal(db, other, capture, payloads);
    if Binds(db, capture, payloads) {
      var pk :| pk in Locals(RefreshRows(db.rows, capture, payloads), capture) && db.rows[pk].amount > 0;
      RefreshKeeps(db, capture, payloads);
      hide RefreshRows, Binds;
      assert pk in Under(db.rows, capture) && Under(other.rows, capture)[pk] == db.rows[pk];
    }
  }

  /** Whether a pass settles its capture depends on the capture's own rows. */
  lemma SettlesLocal(db: Db, other: Db, capture: nat, payloads: seq<Payload>)
    requires TableOk(db) && Under(db.rows, capture) == Under(other.rows, capture)
    requires capture in db.captures && capture in other.captures && other.captures[capture] == db.captures[capture]
    requires Settles(db, capture, payloads)
    ensures Settles(other, capture, payloads)
  {
    hide MoneyBack, Moves, RefreshRows, CompletesRow, Unmatched, TableOk, Under;
    if RefreshSettles(db.rows, capture, payloads) {
      var i :| 0 <= i < |payloads| && SettlesAt(db.rows, capture, payloads, i);
      CompletesRowLocal(db.rows, other.rows, capture, payloads[i]);
      MoneyBackLocal(db.rows, other.rows, capture, payloads[..i + 1]);
      assert SettlesAt(other.rows, capture, payloads, i);
    } else {
      UnmatchedLocal(db.rows, other.rows, capture, payloads);
      var unmatched := Unmatched(db.rows, capture, payloads);
      var j :| 0 <= j < |unmatched| && unmatched[j].status == Some(Completed)
        && (Moves(db, capture, payloads, unmatched[j]) || MoneyBack(RefreshRows(db.rows, capture, payloads), capture));
      if Moves(db, capture, payloads, unmatched[j]) {
        MovesLocal(db, other, capture, payloads, unmatched[j]);
      } else {
        MoneyBackLocal(db.rows, other.rows, capture, payloads);
      }
    }
  }

  /** The same for the loop over the captures: each capture's status depends on its own group. */
  lemma {:induction false} PassesSettleIff(db: Db, owner: string -> nat, groups: seq<Group>, k: nat)
    requires TableOk(db) && Owned(db, owner) && GroupsOk(db, owner, groups) && k < |groups|
    requires DistinctIds(groups[k].payloads) && db.captures[groups[k].capture].status == INITIATED
    ensures var c, after := groups[k].capture, RunPasses(db, groups).db;
      c in after.captures && (after.captures[c].status == INITIATED <==> !Settles(db, c, groups[k].payloads))
    decreases |groups|
  {
    var before, last, c := groups[..|groups| - 1], groups[|groups| - 1], groups[k].capture;
    if k < |before| {
      assert GroupsOk(db, owner, before) && c != last.capture && before[k] == groups[k];
      LastGroupOk(db, owner, groups);
      hide TableOk, Owned, RunPass, PayloadsOk, Settles, DistinctIds, GroupsOk;
      PassesSettleIff(db, owner, before, k);
      PassElsewhere(RunPasses(db, before).db, last.capture, last.payloads, c);
    } else {
      LastSettlesIff(db, owner, groups);
    }
  }

  lemma LastSettlesIff(db: Db, owner: string -> nat, groups: seq<Group>)
    requires TableOk(db) && Owned(db, owner) && GroupsOk(db, owner, groups) && groups != []
    requires var last := groups[|groups| - 1];
      DistinctIds(last.payloads) && db.captures[last.capture].status == INITIATED
    ensures var c, payloads := groups[|groups| - 1].capture, groups[|groups| - 1].payloads;
      var after := RunPasses(db, groups).db;
      c in after.captures && (after.captures[c].status == INITIATED <==> !Settles(db, c, payloads))
  {
    var before, last := groups[..|groups| - 1], groups[|groups| - 1];
    var mid, c := RunPasses(db, before).db, last.capture;
    assert GroupsOk(db, owner, before);
    LastGroupOk(db, owner, groups);
    PassesElsewhere(db, owner, before, c);
    hide TableOk, Owned, RunPass, PayloadsOk, Settles, DistinctIds, Under, GroupsOk;
    PassSettlesIff(mid, c, last.payloads);
    if Settles(db, c, last.payloads) {
      SettlesLocal(db, mid, c, last.payloads);
    }
    if Settles(mid, c, last.payloads) {
      SettlesLocal(mid, db, c, last.payloads);
    }
  }

  // ---------- what status a capture ends up with ----------

  /** The same table but for the captures' statuses. */
  ghost predicate Alike(a: Db, b: Db) {
    && b.rows == a.rows && b.nextPk == a.nextPk && b.captures.Keys == a.captures.Keys
    && forall c :: c in a.captures ==> b.captures[c] == a.captures[c].(status := b.captures[c].status)
  }

  predicate SaysRefunded(status: string) {
    status == "REFUNDED" || status == "PARTIALLY_REFUNDED"
  }

  /** From two tables that differ in statuses: a status is the old one in both, or the same new one in both. */
  ghost predicate Together(a0: Db, b0: Db, a: Db, b: Db) {
    && Alike(a, b) && a.captures.Keys <= a0.captures.Keys && a.captures.Keys <= b0.captures.Keys
    && forall c :: c in a.captures ==>
         || (a.captures[c].status == a0.captures[c].status && b.captures[c].status == b0.captures[c].status)
         || (a.captures[c].status == b.captures[c].status && SaysRefunded(a.captures[c].status))
  }

  lemma SyncTogether(a0: Db, b0: Db, a: Db, b: Db, c: nat)
    requires Together(a0, b0, a, b)
    ensures Together(a0, b0, SyncStatus(a, c), SyncStatus(b, c))
  {}

  lemma RowsTogether(a0: Db, b0: Db, a: Db, b: Db, rows: map<nat, Refund>, nextPk: nat)
    requires Together(a0, b0, a, b)
    ensures Together(a0, b0, Db(a.captures, rows, nextPk), Db(b.captures, rows, nextPk))
  {}

  lemma RefreshOneTogether(a0: Db, b0: Db, a: Db, b: Db, capture: nat, p: Payload)
    requires Together(a0, b0, a, b)
    ensures Together(a0, b0, RefreshOne(a, capture, p), RefreshOne(b, capture, p))
  {
    var pk := if p.id.Some? then First(a.rows, WithPaypalId(p.id.value), a.nextPk) else None;
    if pk.Some? && a.rows[pk.value].capture == capture {
      var rows := a.rows[pk.value := UpdateFromPayload(a.rows[pk.value], p)];
      RowsTogether(a0, b0, a, b, rows, a.nextPk);
      SyncTogether(a0, b0, a.(rows := rows), b.(rows := rows), capture);
    }
    hide Together, SyncStatus;
  }

  lemma {:induction false} RefreshTogether(a: Db, b: Db, capture: nat, payloads: seq<Payload>)
    requires Alike(a, b)
    ensures Together(a, b, RefreshSynced(a, capture, payloads), RefreshSynced(b, capture, payloads))
    decreases |payloads|
  {
    if payloads != [] {
      var front := payloads[..|payloads| - 1];
      RefreshTogether(a, b, capture, front);
      RefreshOneTogether(a, b, RefreshSynced(a, capture, front), RefreshSynced(b, capture, front), capture,
                         payloads[|payloads| - 1]);
      hide Together, RefreshOne;
    }
  }

  /** Adoption never looks at a status. */
  lemma AdoptAlike(a: Db, b: Db, capture: nat, p: Payload)
    requires Alike(a, b)
    ensures var after := TableAfter(a, AdoptRemoteRefund(a, capture, p));
      var other := TableAfter(b, AdoptRemoteRefund(b, capture, p));
      && after.captures == a.captures && other.captures == b.captures
      && other.rows == after.rows && other.nextPk == after.nextPk
  {}

  lemma {:induction false} AdoptTogether(a0: Db, b0: Db, a: Db, b: Db, capture: nat, payloads: seq<Payload>)
    requires Together(a0, b0, a, b)
    ensures Together(a0, b0, AdoptSynced(a, capture, payloads).db, AdoptSynced(b, capture, payloads).db)
    decreases |payloads|
  {
    if payloads != [] {
      var front, last := payloads[..|payloads| - 1], payloads[|payloads| - 1];
      AdoptTogether(a0, b0, a, b, capture, front);
      var x, y := AdoptSynced(a, capture, front).db, AdoptSynced(b, capture, front).db;
      AdoptAlike(x, y, capture, last);
      var after := TableAfter(x, AdoptRemoteRefund(x, capture, last));
      var other := TableAfter(y, AdoptRemoteRefund(y, capture, last));
      RowsTogether(a0, b0, x, y, after.rows, after.nextPk);
      assert after == Db(x.captures, after.rows, after.nextPk) && other == Db(y.captures, after.rows, after.nextPk);
      SyncTogether(a0, b0, after, other, capture);
      assert AdoptSignal(after, last) == AdoptSignal(other, last);
      hide Together, AdoptRemoteRefund, AdoptSignal, SyncStatus;
    }
  }

  lemma SettleAlike(a: Db, b: Db, h: Handle, p: Payload)
    requires Alike(a, b)
    ensures SettleRefund(a, h, p).Done? == SettleRefund(b, h, p).Done?
    ensures SettleRefund(a, h, p).Done? ==>
      && SettleRefund(b, h, p).value == SettleRefund(a, h, p).value
      && SettleRefund(a, h, p).db == a.(rows := SettleRefund(a, h, p).db.rows)
      && SettleRefund(b, h, p).db == b.(rows := SettleRefund(a, h, p).db.rows)
  {}

  lemma SettleTogether(a0: Db, b0: Db, a: Db, b: Db, pk: nat, p: Payload)
    requires Together(a0, b0, a, b) && pk in a.rows
    ensures Together(a0, b0, SettleSynced(a, pk, p), SettleSynced(b, pk, p))
  {
    var h := HandleOf(pk, a.rows[pk]);
    SettleAlike(a, b, h, p);
    if SettleRefund(a, h, p).Done? {
      var rows, q := SettleRefund(a, h, p).db.rows, SettleRefund(a, h, p).value.0;
      RowsTogether(a0, b0, a, b, rows, a.nextPk);
      if q in rows {
        SyncTogether(a0, b0, a.(rows := rows), b.(rows := rows), rows[q].capture);
      }
    }
    hide Together, SettleRefund, SyncStatus;
  }

  lemma PassTogether(a0: Db, b0: Db, a: Db, b: Db, capture: nat, payloads: seq<Payload>)
    requires Together(a0, b0, a, b)
    ensures Together(a0, b0, RunPass(a, capture, payloads).db, RunPass(b, capture, payloads).db)
  {
    var x, y := RefreshSynced(a, capture, payloads), RefreshSynced(b, capture, payloads);
    RefreshTogether(a, b, capture, payloads);
    TogetherChain(a0, b0, a, b, x, y);
    var unmatched, local := Unmatched(a.rows, capture, payloads), FirstLocal(x, capture);
    AdoptTogether(a0, b0, x, y, capture, unmatched);
    if local.Some? && unmatched != [] {
      SettleTogether(a0, b0, x, y, local.value, unmatched[0]);
    }
    assert Alike(x, y) && Alike(a, b);
    hide Together, RefreshSynced, AdoptSynced, SettleSynced, Unmatched, RefreshSignals, SettleRefund;
  }

  lemma TogetherChain(a0: Db, b0: Db, a: Db, b: Db, x: Db, y: Db)
    requires Together(a0, b0, a, b) && Together(a, b, x, y)
    ensures Together(a0, b0, x, y)
  {}

  lemma {:induction false} PassesTogether(a: Db, b: Db, groups: seq<Group>)
    requires Alike(a, b)
    ensures Together(a, b, RunPasses(a, groups).db, RunPasses(b, groups).db)
    decreases |groups|
  {
    if groups != [] {
      var front, last := groups[..|groups| - 1], groups[|groups| - 1];
      PassesTogether(a, b, front);
      PassTogether(a, b, RunPasses(a, front).db, RunPasses(b, front).db, last.capture, last.payloads);
      hide Together, RunPass;
    }
  }

  /** The table with every capture unconfirmed. */
  function Unconfirmed(db: Db): Db {
    db.(captures := map c | c in db.captures :: db.captures[c].(status := INITIATED))
  }

  lemma SettlesUnconfirmed(db: Db, capture: nat, payloads: seq<Payload>)
    requires capture in db.captures
    ensures Settles(Unconfirmed(db), capture, payloads) <==> Settles(db, capture, payloads)
  {
    hide Unmatched, MoneyBack, RefreshRows, RefreshSettles;
    forall p: Payload ensures Moves(Unconfirmed(db), capture, payloads, p) <==> Moves(db, capture, payloads, p) {}
  }

  /**
   After the passes over an order's groups a capture has the status it had before, unless its own group settles it;
   then it is REFUNDED or PARTIALLY_REFUNDED.
   */
  lemma PassesShow(db: Db, owner: string -> nat, groups: seq<Group>, k: nat)
    requires TableOk(db) && Owned(db, owner) && GroupsOk(db, owner, groups) && k < |groups|
    requires DistinctIds(groups[k].payloads)
    ensures var c, after := groups[k].capture, RunPasses(db, groups).db;
      && c in after.captures && c in db.captures
      && if Settles(db, c, groups[k].payloads) then SaysRefunded(after.captures[c].status)
         else after.captures[c].status == db.captures[c].status
  {
    var c, blank := groups[k].capture, Unconfirmed(db);
    assert GroupOk(db, owner, groups[k]);
    assert TableOk(blank) && Owned(blank, owner);
    assert GroupsOk(blank, owner, groups) by {
      forall i | 0 <= i < |groups| ensures GroupOk(blank, owner, groups[i]) {
        assert GroupOk(db, owner, groups[i]);
      }
    }
    SettlesUnconfirmed(db, c, groups[k].payloads);
    hide TableOk, Owned, GroupsOk, RunPasses, Settles, DistinctIds;
    PassesSettleIff(blank, owner, groups, k);
    PassesTogether(db, blank, groups);
    assert "REFUNDED"[0] == 'R' && "PARTIALLY_REFUNDED"[0] == 'P' && INITIATED[0] == 'I';
  }
}
