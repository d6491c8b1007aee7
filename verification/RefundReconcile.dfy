/**
 Reconciling one capture's refunds with what PayPal's order says
 (_reconcile_refunds in paypal_checkout/orders.py).

 The pass first refreshes the rows it knows, then either binds the one INITIATED attempt to
 the one unmatched refund, or adopts every unmatched refund and flags the attempts.
 */
module RefundReconcile {
  import opened Options
  import opened RefundRows

  // ---------- the pass over one capture ----------

  /** Every payload of the list that names the row's refund, applied in order. */
  function Refreshed(row: Refund, payloads: seq<Payload>): Refund {
    if payloads == [] then row
    else
      var last, before := payloads[|payloads| - 1], Refreshed(row, payloads[..|payloads| - 1]);
      if row.paypalId.Some? && row.paypalId == last.id then UpdateFromPayload(before, last) else before
  }

  function RefreshRows(rows: map<nat, Refund>, capture: nat, payloads: seq<Payload>): map<nat, Refund> {
    map pk | pk in rows :: if rows[pk].capture == capture then Refreshed(rows[pk], payloads) else rows[pk]
  }

  /** A row of the capture already carries this refund. */
  predicate Knows(rows: map<nat, Refund>, capture: nat, p: Payload) {
    exists pk :: pk in rows && rows[pk].capture == capture && rows[pk].paypalId == p.id
  }

  function Unmatched(rows: map<nat, Refund>, capture: nat, payloads: seq<Payload>): seq<Payload> {
    if payloads == [] then []
    else
      var last := payloads[|payloads| - 1];
      Unmatched(rows, capture, payloads[..|payloads| - 1]) + if Knows(rows, capture, last) then [] else [last]
  }

  function Locals(rows: map<nat, Refund>, capture: nat): set<nat> {
    set pk | pk in rows && rows[pk].capture == capture && rows[pk].status.Initiated?
  }

  /** A table, and what the pass reports: refunds adopted or bound, and payment_refunded signals, by PayPal id. */
  datatype Pass = Pass(db: Db, adopted: seq<Option<string>>, signals: seq<Option<string>>)

  /** The signal for a refund that this payload turns COMPLETED. */
  function RefreshSignal(rows: map<nat, Refund>, capture: nat, p: Payload, bound: nat): seq<Option<string>> {
    var pk := if p.id.Some? then First(rows, WithPaypalId(p.id.value), bound) else None;
    if pk.Some? && rows[pk.value].capture == capture && !rows[pk.value].status.Completed?
       && UpdateFromPayload(rows[pk.value], p).status.Completed?
    then [p.id] else []
  }

  function RefreshSignals(rows: map<nat, Refund>, capture: nat,
    payloads: seq<Payload>, bound: nat): seq<Option<string>> {
    if payloads == [] then []
    else
      var before := payloads[..|payloads| - 1];
      RefreshSignals(rows, capture, before, bound)
        + RefreshSignal(RefreshRows(rows, capture, before), capture, payloads[|payloads| - 1], bound)
  }

  function AdoptSignal(db: Db, p: Payload): seq<Option<string>> {
    var pk := if p.id.Some? then First(db.rows, WithPaypalId(p.id.value), db.nextPk) else None;
    if pk.Some? && db.rows[pk.value].status.Completed? then [p.id] else []
  }

  function AdoptAll(db: Db, capture: nat, payloads: seq<Payload>): Pass {
    if payloads == [] then Pass(db, [], [])
    else
      var before, last := AdoptAll(db, capture, payloads[..|payloads| - 1]), payloads[|payloads| - 1];
      var after := TableAfter(before.db, AdoptRemoteRefund(before.db, capture, last));
      Pass(after, before.adopted + [last.id], before.signals + AdoptSignal(after, last))
  }

  /** The lowest INITIATED row of the capture. */
  function FirstLocal(db: Db, capture: nat): Option<nat> {
    First(db.rows, InitiatedIn(capture), db.nextPk)
  }

  function PassCapture(db: Db, capture: nat, payloads: seq<Payload>): Pass {
    var refreshed := db.(rows := RefreshRows(db.rows, capture, payloads));
    var signals := RefreshSignals(db.rows, capture, payloads, db.nextPk);
    var unmatched := Unmatched(db.rows, capture, payloads);
    var local := FirstLocal(refreshed, capture);
    if unmatched == [] then Pass(refreshed, [], signals)
    else if |Locals(refreshed.rows, capture)| == 1 && |unmatched| == 1 && local.Some? then
      var settled := SettleRefund(refreshed, HandleOf(local.value, refreshed.rows[local.value]), unmatched[0]);
      var notify := settled.Done? && settled.value.1;
      Pass(TableAfter(refreshed, settled), [unmatched[0].id], signals + if notify then [unmatched[0].id] else [])
    else
      var adopted := AdoptAll(refreshed, capture, unmatched);
      Pass(adopted.db, adopted.adopted, signals + adopted.signals)
  }

  // ---------- what the environment guarantees ----------

  /** No row outside the capture carries one of these refunds. */
  ghost predicate OnlyHere(rows: map<nat, Refund>, capture: nat, payloads: seq<Payload>) {
    forall i, pk :: 0 <= i < |payloads| && pk in rows && rows[pk].paypalId == payloads[i].id ==>
      rows[pk].capture == capture
  }

  /** A payload that names its refund and carries no local-only status. */
  predicate Honest(p: Payload) {
    p.id.Some? && (p.status.Some? ==> !p.status.value.OutcomeUnknown())
  }

  /** The payloads are honest, and each of their refunds belongs to this capture. */
  ghost predicate PayloadsOk(db: Db, capture: nat, payloads: seq<Payload>) {
    && capture in db.captures && OnlyHere(db.rows, capture, payloads)
    && forall i :: 0 <= i < |payloads| ==> Honest(payloads[i])
  }

  ghost predicate DistinctIds(payloads: seq<Payload>) {
    forall i, j :: 0 <= i < j < |payloads| ==> payloads[i].id != payloads[j].id
  }

  ghost predicate Named(payloads: seq<Payload>, id: Option<string>) {
    exists i :: 0 <= i < |payloads| && payloads[i].id == id
  }

  /** The only INITIATED attempt faces the only unmatched refund. */
  predicate Binds(db: Db, capture: nat, payloads: seq<Payload>) {
    |Locals(RefreshRows(db.rows, capture, payloads), capture)| == 1 && |Unmatched(db.rows, capture, payloads)| == 1
  }

  /** ... and that attempt already carries another refund of the same list, which the bind overwrites. */
  ghost predicate Rebinds(db: Db, capture: nat, payloads: seq<Payload>) {
    && Binds(db, capture, payloads)
    && exists pk :: pk in Locals(RefreshRows(db.rows, capture, payloads), capture)
         && db.rows[pk].paypalId.Some? && Named(payloads, db.rows[pk].paypalId)
  }

  // ---------- refreshing ----------

  lemma NamedPrefix(payloads: seq<Payload>, n: nat, id: Option<string>)
    requires n <= |payloads| && Named(payloads[..n], id)
    ensures Named(payloads, id)
  {
    var i :| 0 <= i < n && payloads[..n][i].id == id;
    assert payloads[i].id == id;
  }

  lemma {:induction false} RefreshedKeeps(row: Refund, payloads: seq<Payload>)
    ensures Refreshed(row, payloads).capture == row.capture && Refreshed(row, payloads).key == row.key
    ensures Refreshed(row, payloads).paypalId == row.paypalId
  {
    if payloads != [] {
      RefreshedKeeps(row, payloads[..|payloads| - 1]);
    }
  }

  /** A row none of the payloads names is left alone. */
  lemma {:induction false} RefreshedUnnamed(row: Refund, payloads: seq<Payload>)
    requires row.paypalId.Some? ==> !Named(payloads, row.paypalId)
    ensures Refreshed(row, payloads) == row
  {
    if payloads != [] {
      var n := |payloads| - 1;
      assert row.paypalId.Some? ==> payloads[n].id != row.paypalId;
      assert row.paypalId.Some? && Named(payloads[..n], row.paypalId) ==> Named(payloads, row.paypalId) by {
        if Named(payloads[..n], row.paypalId) {
          NamedPrefix(payloads, n, row.paypalId);
        }
      }
      RefreshedUnnamed(row, payloads[..n]);
    }
  }

  /** With distinct ids, only the row's own payload counts. */
  lemma {:induction false} RefreshedByOne(row: Refund, payloads: seq<Payload>, i: nat)
    requires DistinctIds(payloads) && i < |payloads| && row.paypalId.Some? && payloads[i].id == row.paypalId
    ensures Refreshed(row, payloads) == UpdateFromPayload(row, payloads[i])
    decreases |payloads|
  {
    var n := |payloads| - 1;
    if i == n {
      assert forall j :: 0 <= j < n ==> payloads[..n][j].id != row.paypalId;
      RefreshedUnnamed(row, payloads[..n]);
    } else {
      RefreshedByOne(row, payloads[..n], i);
    }
  }

  /** A row that already agrees with every payload naming it. */
  ghost predicate Agrees(row: Refund, payloads: seq<Payload>) {
    forall i :: 0 <= i < |payloads| && row.paypalId.Some? && payloads[i].id == row.paypalId ==>
      UpdateFromPayload(row, payloads[i]) == row
  }

  lemma {:induction false} AgreeingUnchanged(row: Refund, payloads: seq<Payload>)
    requires Agrees(row, payloads)
    ensures Refreshed(row, payloads) == row
  {
    if payloads != [] {
      AgreeingUnchanged(row, payloads[..|payloads| - 1]);
    }
  }

  /** After a refresh with distinct ids the row agrees, and flagging it does not change that. */
  lemma RefreshedAgrees(row: Refund, payloads: seq<Payload>)
    requires DistinctIds(payloads)
    requires forall i :: 0 <= i < |payloads| ==> Honest(payloads[i])
    ensures Agrees(Refreshed(row, payloads), payloads)
    ensures Refreshed(row, payloads).status.Initiated? ==>
      Agrees(Refreshed(row, payloads).(status := Unresolved), payloads)
  {
    RefreshedKeeps(row, payloads);
    forall i | 0 <= i < |payloads| && row.paypalId.Some? && payloads[i].id == row.paypalId
      ensures Refreshed(row, payloads) == UpdateFromPayload(row, payloads[i])
    {
      RefreshedByOne(row, payloads, i);
    }
  }

  // ---------- matching ----------

  lemma {:induction false} UnmatchedMembers(rows: map<nat, Refund>, capture: nat, payloads: seq<Payload>)
    ensures forall p :: p in Unmatched(rows, capture, payloads) <==> p in payloads && !Knows(rows, capture, p)
  {
    if payloads != [] {
      UnmatchedMembers(rows, capture, payloads[..|payloads| - 1]);
      assert payloads == payloads[..|payloads| - 1] + [payloads[|payloads| - 1]];
    }
  }

  lemma {:induction false} UnmatchedDistinct(rows: map<nat, Refund>, capture: nat, payloads: seq<Payload>)
    requires DistinctIds(payloads)
    ensures DistinctIds(Unmatched(rows, capture, payloads))
  {
    if payloads != [] {
      var before, last := payloads[..|payloads| - 1], payloads[|payloads| - 1];
      UnmatchedDistinct(rows, capture, before);
      UnmatchedMembers(rows, capture, before);
      var u := Unmatched(rows, capture, before);
      forall i | 0 <= i < |u| ensures u[i].id != last.id {
        assert u[i] in before;
        var j :| 0 <= j < |before| && before[j] == u[i];
        assert payloads[j].id != last.id;
      }
    }
  }

  lemma {:induction false} UnmatchedEmpty(rows: map<nat, Refund>, capture: nat, payloads: seq<Payload>)
    ensures Unmatched(rows, capture, payloads) == [] <==>
      forall i :: 0 <= i < |payloads| ==> Knows(rows, capture, payloads[i])
  {
    UnmatchedMembers(rows, capture, payloads);
    var u := Unmatched(rows, capture, payloads);
    if u != [] {
      assert u[0] in u;
      assert u[0] in payloads && !Knows(rows, capture, u[0]);
    }
    if i :| 0 <= i < |payloads| && !Knows(rows, capture, payloads[i]) {
      assert payloads[i] in payloads;
      assert payloads[i] in u;
    }
  }

  // ---------- adopting ----------

  function Flagged(row: Refund, capture: nat): Refund {
    if row.capture == capture && row.status.Initiated? then row.(status := Unresolved) else row
  }

  /** None of these refunds has a row yet. */
  ghost predicate Unheard(rows: map<nat, Refund>, payloads: seq<Payload>) {
    forall i, pk :: 0 <= i < |payloads| && pk in rows ==> rows[pk].paypalId != payloads[i].id
  }

  /** A refund without a row is inserted, and flags every attempt of its capture. */
  lemma AdoptUnheard(db: Db, capture: nat, p: Payload)
    requires p.id.Some? && capture in db.captures
    requires forall pk :: pk in db.rows ==> pk < db.nextPk && db.rows[pk].paypalId != p.id
    ensures AdoptRemoteRefund(db, capture, p)
         == Done(db.(rows := FlagOthers(db.rows[db.nextPk := AdoptedRow(db, capture, p)], capture, db.nextPk),
                     nextPk := db.nextPk + 1), Some(db.nextPk))
  {
    assert First(db.rows, WithPaypalId(p.id.value), db.nextPk).None?;
    assert AdoptedRow(db, capture, p).paypalId == p.id && AdoptedRow(db, capture, p).key.None?;
    assert Accepts(db.rows, db.nextPk, AdoptedRow(db, capture, p));
  }

  // ---------- every refund is carried by exactly one row ----------

  /** Exactly one row carries this refund, and it is a row of the capture. */
  ghost predicate CarriedOnce(rows: map<nat, Refund>, capture: nat, id: Option<string>) {
    exists pk :: pk in rows && rows[pk].capture == capture && rows[pk].paypalId == id
      && forall other :: other in rows && other != pk ==> rows[other].paypalId != id
  }

  lemma KnownIsCarriedOnce(db: Db, capture: nat, p: Payload)
    requires TableOk(db) && p.id.Some?
    ensures Knows(db.rows, capture, p) <==> CarriedOnce(db.rows, capture, p.id)
  {
  }

  ghost predicate KeepsIds(before: map<nat, Refund>, after: map<nat, Refund>) {
    forall pk :: pk in before ==>
      pk in after && after[pk].capture == before[pk].capture && after[pk].paypalId == before[pk].paypalId
  }

  /** No row lost its refund, every listed refund has a row under the capture, and other rows are not new. */
  ghost predicate Gathers(before: Db, after: Db, capture: nat, payloads: seq<Payload>) {
    && TableOk(after) && after.captures == before.captures && KeepsIds(before.rows, after.rows)
    && (forall pk :: pk in after.rows && pk !in before.rows ==>
          after.rows[pk].capture == capture && Named(payloads, after.rows[pk].paypalId))
    && (forall i :: 0 <= i < |payloads| ==> Knows(after.rows, capture, payloads[i]))
  }

  lemma SavedTableOk(db: Db, pk: nat, row: Refund)
    requires TableOk(db) && pk in db.rows && row.capture == db.rows[pk].capture && Accepts(db.rows, pk, row)
    ensures TableOk(db.(rows := db.rows[pk := row]))
  {}

  lemma InsertedTableOk(db: Db, row: Refund)
    requires TableOk(db) && row.capture in db.captures && Accepts(db.rows, db.nextPk, row)
    ensures TableOk(db.(rows := db.rows[db.nextPk := row], nextPk := db.nextPk + 1))
  {}

  lemma FlaggedTableOk(db: Db, capture: nat, except: nat)
    requires TableOk(db)
    ensures TableOk(db.(rows := FlagOthers(db.rows, capture, except)))
    ensures KeepsIds(db.rows, FlagOthers(db.rows, capture, except))
  {}

  lemma GathersOne(db: Db, after: Db, capture: nat, p: Payload, pk: nat)
    requires TableOk(after) && after.captures == db.captures && KeepsIds(db.rows, after.rows)
    requires after.rows.Keys == db.rows.Keys + {pk}
    requires after.rows[pk].capture == capture && after.rows[pk].paypalId == p.id
    ensures Gathers(db, after, capture, [p])
  {
    hide TableOk;
    assert [p][0].id == p.id;
    assert Knows(after.rows, capture, [p][0]);
  }

  lemma KnownGathers(db: Db, capture: nat, p: Payload, pk: nat)
    requires TableOk(db) && p.id.Some? && pk in db.rows && db.rows[pk].paypalId == p.id
    requires db.rows[pk].capture == capture
    ensures Accepts(db.rows, pk, UpdateFromPayload(db.rows[pk], p))
    ensures Gathers(db, db.(rows := db.rows[pk := UpdateFromPayload(db.rows[pk], p)]), capture, [p])
  {
    var row := UpdateFromPayload(db.rows[pk], p);
    assert Accepts(db.rows, pk, row);
    SavedTableOk(db, pk, row);
    hide TableOk, Accepts, Gathers;
    GathersOne(db, db.(rows := db.rows[pk := row]), capture, p, pk);
  }

  lemma InsertedKeepsIds(db: Db, row: Refund, capture: nat)
    requires TableOk(db)
    ensures KeepsIds(db.rows, FlagOthers(db.rows[db.nextPk := row], capture, db.nextPk))
  {}

  lemma NewcomerGathers(db: Db, capture: nat, p: Payload, row: Refund)
    requires TableOk(db) && capture in db.captures && p.id.Some?
    requires row.capture == capture && row.paypalId == p.id && Accepts(db.rows, db.nextPk, row)
    ensures Gathers(db, db.(rows := FlagOthers(db.rows[db.nextPk := row], capture, db.nextPk), nextPk := db.nextPk + 1),
                    capture, [p])
  {
    var pk := db.nextPk;
    hide TableOk, Accepts, Gathers, KeepsIds;
    InsertedTableOk(db, row);
    FlaggedTableOk(db.(rows := db.rows[pk := row], nextPk := pk + 1), capture, pk);
    InsertedKeepsIds(db, row, capture);
    GathersOne(db, db.(rows := FlagOthers(db.rows[pk := row], capture, pk), nextPk := pk + 1), capture, p, pk);
  }

  lemma AdoptGathers(db: Db, capture: nat, p: Payload)
    requires TableOk(db) && capture in db.captures && p.id.Some? && OnlyHere(db.rows, capture, [p])
    ensures AdoptRemoteRefund(db, capture, p).Done?
    ensures Gathers(db, AdoptRemoteRefund(db, capture, p).db, capture, [p])
  {
    assert [p][0] == p;
    var known := First(db.rows, WithPaypalId(p.id.value), db.nextPk);
    if known.Some? {
      hide Gathers, TableOk, UpdateFromPayload;
      KnownGathers(db, capture, p, known.value);
    } else {
      AdoptUnheard(db, capture, p);
      assert Accepts(db.rows, db.nextPk, AdoptedRow(db, capture, p));
      hide Gathers, TableOk, AdoptRemoteRefund;
      NewcomerGathers(db, capture, p, AdoptedRow(db, capture, p));
    }
  }

  lemma GathersBoth(a: Db, b: Db, c: Db, capture: nat, before: seq<Payload>, p: Payload)
    requires Gathers(a, b, capture, before) && Gathers(b, c, capture, [p])
    ensures Gathers(a, c, capture, before + [p])
  {
    var all := before + [p];
    forall pk | pk in c.rows && pk !in a.rows
      ensures c.rows[pk].capture == capture && Named(all, c.rows[pk].paypalId)
    {
      if pk in b.rows {
        NamedPrefix(all, |before|, b.rows[pk].paypalId) by { assert all[..|before|] == before; }
      } else {
        assert all[|before|] == p;
      }
    }
    forall i | 0 <= i < |all| ensures Knows(c.rows, capture, all[i]) {
      if i < |before| {
        assert Knows(b.rows, capture, before[i]);
        var pk :| pk in b.rows && b.rows[pk].capture == capture && b.rows[pk].paypalId == before[i].id;
        assert pk in c.rows && c.rows[pk].paypalId == all[i].id;
      } else {
        assert all[i] == [p][0];
      }
    }
  }

  lemma StaysHere(db: Db, mid: Db, capture: nat, payloads: seq<Payload>)
    requires payloads != [] && OnlyHere(db.rows, capture, payloads)
    requires Gathers(db, mid, capture, payloads[..|payloads| - 1])
    ensures OnlyHere(mid.rows, capture, [payloads[|payloads| - 1]])
  {
    hide TableOk, Knows, Named;
    var last := payloads[|payloads| - 1];
    forall pk | pk in mid.rows && mid.rows[pk].paypalId == last.id ensures mid.rows[pk].capture == capture {
      assert pk in db.rows ==> db.rows[pk].paypalId == payloads[|payloads| - 1].id;
    }
  }

  lemma AdoptAllUnfolds(db: Db, capture: nat, payloads: seq<Payload>)
    ensures payloads == [] ==> AdoptAll(db, capture, payloads).db == db
    ensures payloads != [] ==>
      var mid := AdoptAll(db, capture, payloads[..|payloads| - 1]).db;
      AdoptAll(db, capture, payloads).db
        == TableAfter(mid, AdoptRemoteRefund(mid, capture, payloads[|payloads| - 1]))
  {
    hide AdoptRemoteRefund, AdoptSignal;
  }

  lemma GathersOneMore(db: Db, capture: nat, payloads: seq<Payload>)
    requires payloads != [] && capture in db.captures && payloads[|payloads| - 1].id.Some?
    requires OnlyHere(db.rows, capture, payloads)
    requires Gathers(db, AdoptAll(db, capture, payloads[..|payloads| - 1]).db, capture, payloads[..|payloads| - 1])
    ensures Gathers(db, AdoptAll(db, capture, payloads).db, capture, payloads)
  {
    hide AdoptAll, AdoptRemoteRefund, Gathers, TableOk, OnlyHere;
    var before, last := payloads[..|payloads| - 1], payloads[|payloads| - 1];
    var mid := AdoptAll(db, capture, before).db;
    AdoptAllUnfolds(db, capture, payloads);
    StaysHere(db, mid, capture, payloads);
    GatheredTable(db, mid, capture, before);
    AdoptGathers(mid, capture, last);
    GathersBoth(db, mid, AdoptRemoteRefund(mid, capture, last).db, capture, before, last);
    assert before + [last] == payloads;
  }

  lemma {:induction false} AdoptAllGathers(db: Db, capture: nat, payloads: seq<Payload>)
    requires TableOk(db) && capture in db.captures && OnlyHere(db.rows, capture, payloads)
    requires forall i :: 0 <= i < |payloads| ==> payloads[i].id.Some?
    ensures Gathers(db, AdoptAll(db, capture, payloads).db, capture, payloads)
  {
    if payloads == [] {
      AdoptAllUnfolds(db, capture, payloads);
    } else {
      assert OnlyHere(db.rows, capture, payloads[..|payloads| - 1]);
      hide AdoptAll, Gathers, TableOk, OnlyHere;
      AdoptAllGathers(db, capture, payloads[..|payloads| - 1]);
      GathersOneMore(db, capture, payloads);
    }
  }

  lemma GatheredTable(before: Db, after: Db, capture: nat, payloads: seq<Payload>)
    requires Gathers(before, after, capture, payloads)
    ensures TableOk(after) && after.captures == before.captures
  {}

  // ---------- what adopting leaves behind ----------

  predicate HasId(rows: seq<Refund>, id: Option<string>) {
    exists k :: 0 <= k < |rows| && rows[k].paypalId == id
  }

  function UpdateId(rows: seq<Refund>, p: Payload): seq<Refund> {
    seq(|rows|, k requires 0 <= k < |rows| =>
      if rows[k].paypalId == p.id then UpdateFromPayload(rows[k], p) else rows[k])
  }

  function FlagAll(rows: seq<Refund>, capture: nat): seq<Refund> {
    seq(|rows|, k requires 0 <= k < |rows| => Flagged(rows[k], capture))
  }

  /** The rows created for refunds without one, in order; a repeated refund updates the row it already got. */
  function Created(db: Db, capture: nat, unmatched: seq<Payload>): seq<Refund>
    requires capture in db.captures
  {
    if unmatched == [] then []
    else
      var before, last := Created(db, capture, unmatched[..|unmatched| - 1]), unmatched[|unmatched| - 1];
      if HasId(before, last.id) then UpdateId(before, last)
      else FlagAll(before, capture) + [AdoptedRow(db, capture, last)]
  }

  /** Old rows are flagged or untouched, and the created rows follow in order. */
  ghost predicate Extends(db: Db, after: Db, capture: nat, flag: bool, created: seq<Refund>) {
    && after.captures == db.captures && after.nextPk == db.nextPk + |created|
    && (forall pk :: pk in after.rows <==> pk in db.rows || db.nextPk <= pk < db.nextPk + |created|)
    && (forall pk :: pk in db.rows ==> after.rows[pk] == if flag then Flagged(db.rows[pk], capture) else db.rows[pk])
    && (forall pk :: db.nextPk <= pk < db.nextPk + |created| ==> after.rows[pk] == created[pk - db.nextPk])
  }

  lemma FlaggedAt(rows: map<nat, Refund>, capture: nat, except: nat, row: Refund, pk: nat)
    requires pk in rows || pk == except
    ensures FlagOthers(rows[except := row], capture, except)[pk] ==
      if pk == except then row else Flagged(rows[pk], capture)
  {}

  lemma ListAt(created: seq<Refund>, capture: nat, row: Refund, i: nat)
    requires i <= |created|
    ensures |FlagAll(created, capture) + [row]| == |created| + 1
    ensures (FlagAll(created, capture) + [row])[i] == if i < |created| then Flagged(created[i], capture) else row
  {}

  /** Where each row of the flagged table comes from. */
  lemma FlaggedFrom(db: Db, mid: Db, capture: nat, flag: bool, created: seq<Refund>, row: Refund, pk: nat)
    requires Extends(db, mid, capture, flag, created) && pk in mid.rows && pk != mid.nextPk
    ensures var after := FlagOthers(mid.rows[mid.nextPk := row], capture, mid.nextPk);
      && (pk in db.rows ==> after[pk] == Flagged(db.rows[pk], capture))
      && (db.nextPk <= pk < db.nextPk + |created| ==>
            after[pk] == (FlagAll(created, capture) + [row])[pk - db.nextPk])
  {
    hide FlagOthers, FlagAll;
    FlaggedAt(mid.rows, capture, mid.nextPk, row, pk);
    if db.nextPk <= pk < db.nextPk + |created| {
      ListAt(created, capture, row, pk - db.nextPk);
    }
  }

  lemma FlaggedExtends(db: Db, mid: Db, capture: nat, flag: bool, created: seq<Refund>, row: Refund)
    requires Extends(db, mid, capture, flag, created) && forall pk :: pk in mid.rows ==> pk < mid.nextPk
    ensures Extends(db,
      mid.(rows := FlagOthers(mid.rows[mid.nextPk := row], capture, mid.nextPk), nextPk := mid.nextPk + 1),
                    capture, true, FlagAll(created, capture) + [row])
  {
    var after, list := FlagOthers(mid.rows[mid.nextPk := row], capture, mid.nextPk), FlagAll(created, capture) + [row];
    hide FlagOthers, FlagAll, Flagged;
    FlaggedKeys(mid.rows, capture, mid.nextPk, row);
    ListAt(created, capture, row, |created|);
    forall pk: nat ensures pk in after <==> pk in db.rows || db.nextPk <= pk < db.nextPk + |list| {
      assert pk in mid.rows <==> pk in db.rows || db.nextPk <= pk < mid.nextPk;
    }
    forall pk | pk in db.rows ensures after[pk] == Flagged(db.rows[pk], capture) {
      assert pk in mid.rows;
      FlaggedFrom(db, mid, capture, flag, created, row, pk);
    }
    forall pk | db.nextPk <= pk < db.nextPk + |list| ensures after[pk] == list[pk - db.nextPk] {
      if pk < mid.nextPk {
        FlaggedFrom(db, mid, capture, flag, created, row, pk);
      }
    }
  }

  lemma FlaggedKeys(rows: map<nat, Refund>, capture: nat, except: nat, row: Refund)
    ensures forall pk :: pk in FlagOthers(rows[except := row], capture, except) <==> pk in rows || pk == except
    ensures FlagOthers(rows[except := row], capture, except)[except] == row
  {}

  lemma AdoptNewcomer(db: Db, mid: Db, capture: nat, flag: bool, created: seq<Refund>, p: Payload)
    requires Extends(db, mid, capture, flag, created) && capture in db.captures && p.id.Some?
    requires forall pk :: pk in mid.rows ==> pk < mid.nextPk && mid.rows[pk].paypalId != p.id
    ensures AdoptRemoteRefund(mid, capture, p).Done?
    ensures Extends(db, AdoptRemoteRefund(mid, capture, p).db, capture, true,
                    FlagAll(created, capture) + [AdoptedRow(db, capture, p)])
  {
    assert mid.captures == db.captures;
    hide Extends, FlagOthers, FlagAll;
    AdoptUnheard(mid, capture, p);
    assert AdoptedRow(mid, capture, p) == AdoptedRow(db, capture, p);
    hide AdoptRemoteRefund, AdoptedRow;
    FlaggedExtends(db, mid, capture, flag, created, AdoptedRow(db, capture, p));
  }

  lemma UpdatedExtends(db: Db, mid: Db, capture: nat, flag: bool, created: seq<Refund>, p: Payload, k: nat)
    requires Extends(db, mid, capture, flag, created) && k < |created|
    requires forall i :: 0 <= i < |created| ==> (created[i].paypalId == p.id <==> i == k)
    requires forall pk :: pk in db.rows ==> pk < db.nextPk
    ensures Extends(db, mid.(rows := mid.rows[db.nextPk + k := UpdateFromPayload(created[k], p)]), capture, flag,
                    UpdateId(created, p))
  {
    hide UpdateFromPayload, Flagged;
  }

  lemma CreatedOnce(db: Db, mid: Db, capture: nat, flag: bool, created: seq<Refund>,
    id: Option<string>) returns (k: nat)
    requires Extends(db, mid, capture, flag, created) && TableOk(mid) && id.Some? && HasId(created, id)
    ensures k < |created| && db.nextPk + k in mid.rows && mid.rows[db.nextPk + k] == created[k]
    ensures forall i :: 0 <= i < |created| ==> (created[i].paypalId == id <==> i == k)
  {
    k :| 0 <= k < |created| && created[k].paypalId == id;
    assert mid.rows[db.nextPk + k] == created[k];
    forall i | 0 <= i < |created| && i != k ensures created[i].paypalId != id {
      assert mid.rows[db.nextPk + i] == created[i];
    }
  }

  lemma AdoptRepeated(db: Db, mid: Db, capture: nat, flag: bool, created: seq<Refund>, p: Payload)
    requires Extends(db, mid, capture, flag, created) && TableOk(mid) && capture in db.captures && p.id.Some?
    requires forall pk :: pk in db.rows ==> pk < db.nextPk
    requires HasId(created, p.id)
    ensures AdoptRemoteRefund(mid, capture, p).Done?
    ensures Extends(db, AdoptRemoteRefund(mid, capture, p).db, capture, flag, UpdateId(created, p))
  {
    assert mid.captures == db.captures;
    hide AdoptRemoteRefund, UpdateId, UpdateFromPayload, Extends, TableOk, HasId;
    var k := CreatedOnce(db, mid, capture, flag, created, p.id);
    KnownFirst(mid, capture, p, db.nextPk + k);
    UpdatedExtends(db, mid, capture, flag, created, p, k);
  }

  /** A refund that has its row is only updated. */
  lemma KnownFirst(db: Db, capture: nat, p: Payload, pk: nat)
    requires TableOk(db) && capture in db.captures && p.id.Some? && pk in db.rows && db.rows[pk].paypalId == p.id
    ensures AdoptRemoteRefund(db, capture, p) ==
      Done(db.(rows := db.rows[pk := UpdateFromPayload(db.rows[pk], p)]), Some(pk))
  {
    assert First(db.rows, WithPaypalId(p.id.value), db.nextPk) == Some(pk);
    assert Accepts(db.rows, pk, UpdateFromPayload(db.rows[pk], p));
  }

  lemma ExtendsUnheard(db: Db, mid: Db, capture: nat, flag: bool, created: seq<Refund>, id: Option<string>)
    requires Extends(db, mid, capture, flag, created) && !HasId(created, id)
    requires forall pk :: pk in db.rows ==> db.rows[pk].paypalId != id
    requires forall pk :: pk in db.rows ==> pk < db.nextPk
    ensures forall pk :: pk in mid.rows ==> pk < mid.nextPk && mid.rows[pk].paypalId != id
  {
    forall pk | pk in mid.rows ensures mid.rows[pk].paypalId != id {
      assert pk !in db.rows ==> mid.rows[pk] == created[pk - db.nextPk];
    }
  }

  /** Adopting refunds unheard of flags every attempt of the capture and creates exactly those rows. */
  lemma {:induction false} AdoptAllEffect(db: Db, capture: nat, payloads: seq<Payload>)
    requires TableOk(db) && capture in db.captures && Unheard(db.rows, payloads)
    requires forall i :: 0 <= i < |payloads| ==> payloads[i].id.Some?
    ensures Extends(db, AdoptAll(db, capture, payloads).db, capture, payloads != [], Created(db, capture, payloads))
  {
    if payloads == [] {
      return;
    }
    var before, last := payloads[..|payloads| - 1], payloads[|payloads| - 1];
    var mid, created := AdoptAll(db, capture, before).db, Created(db, capture, before);
    AdoptAllUnfolds(db, capture, payloads);
    assert Unheard(db.rows, before) && OnlyHere(db.rows, capture, before);
    assert forall pk :: pk in db.rows ==> pk < db.nextPk && db.rows[pk].paypalId != last.id;
    hide AdoptRemoteRefund, AdoptSignal, AdoptAll, Gathers, Extends, TableOk, Unheard, OnlyHere;
    AdoptAllEffect(db, capture, before);
    AdoptAllGathers(db, capture, before);
    GatheredTable(db, mid, capture, before);
    if HasId(created, last.id) {
      AdoptRepeated(db, mid, capture, before != [], created, last);
    } else {
      ExtendsUnheard(db, mid, capture, before != [], created, last.id);
      AdoptNewcomer(db, mid, capture, before != [], created, last);
    }
  }

  // ---------- the pass ----------

  lemma RefreshKeeps(db: Db, capture: nat, payloads: seq<Payload>)
    requires TableOk(db)
    ensures TableOk(db.(rows := RefreshRows(db.rows, capture, payloads)))
    ensures KeepsIds(db.rows, RefreshRows(db.rows, capture, payloads))
    ensures KeepsIds(RefreshRows(db.rows, capture, payloads), db.rows)
  {
    forall pk | pk in db.rows
      ensures RefreshRows(db.rows, capture, payloads)[pk].capture == db.rows[pk].capture
      ensures RefreshRows(db.rows, capture, payloads)[pk].key == db.rows[pk].key
      ensures RefreshRows(db.rows, capture, payloads)[pk].paypalId == db.rows[pk].paypalId
    {
      RefreshedKeeps(db.rows[pk], payloads);
    }
  }

  /** The refreshed table, its only INITIATED row of the capture if there is one, and the unmatched refunds. */
  function AfterRefresh(db: Db, capture: nat, payloads: seq<Payload>): Db {
    db.(rows := RefreshRows(db.rows, capture, payloads))
  }

  lemma OnlyLocal(db: Db, capture: nat)
    requires TableOk(db) && |Locals(db.rows, capture)| == 1
    ensures FirstLocal(db, capture).Some? && Locals(db.rows, capture) == {FirstLocal(db, capture).value}
  {
    var s := Locals(db.rows, capture);
    var pk :| pk in s;
    assert s == {pk} by {
      assert |s - {pk}| == 0;
    }
    assert Matches(InitiatedIn(capture), pk, db.rows[pk]);
    assert FirstLocal(db, capture).Some?;
    assert FirstLocal(db, capture).value in s;
  }

  lemma SettleUnheard(db: Db, pk: nat, p: Payload)
    requires TableOk(db) && pk in db.rows && p.id.Some?
    requires forall other :: other in db.rows ==> db.rows[other].paypalId != p.id
    ensures SettleRefund(db, HandleOf(pk, db.rows[pk]), p)
         == Done(db.(rows := db.rows[pk := UpdateFromPayload(db.rows[pk], p)]),
                 (pk, UpdateFromPayload(db.rows[pk], p).status.Completed?))
  {
    assert First(db.rows, OtherWithPaypalId(p.id.value, pk), db.nextPk).None?;
  }

  lemma UnmatchedUnheard(db: Db, capture: nat, payloads: seq<Payload>)
    requires TableOk(db) && PayloadsOk(db, capture, payloads)
    ensures Unheard(AfterRefresh(db, capture, payloads).rows, Unmatched(db.rows, capture, payloads))
    ensures forall i :: 0 <= i < |Unmatched(db.rows, capture, payloads)| ==>
      Unmatched(db.rows, capture, payloads)[i].id.Some?
  {
    var u := Unmatched(db.rows, capture, payloads);
    UnmatchedMembers(db.rows, capture, payloads);
    RefreshKeeps(db, capture, payloads);
    forall i | 0 <= i < |u|
      ensures u[i].id.Some?
      ensures forall pk :: pk in db.rows ==> db.rows[pk].paypalId != u[i].id
    {
      assert u[i] in u;
      var j :| 0 <= j < |payloads| && payloads[j] == u[i];
    }
  }

  /** The bound row, when one attempt faces one refund. */
  function Local(db: Db, capture: nat, payloads: seq<Payload>): nat
    requires TableOk(db) && Binds(db, capture, payloads)
  {
    RefreshKeeps(db, capture, payloads);
    OnlyLocal(AfterRefresh(db, capture, payloads), capture);
    FirstLocal(AfterRefresh(db, capture, payloads), capture).value
  }

  lemma PassBinds(db: Db, capture: nat, payloads: seq<Payload>)
    requires TableOk(db) && PayloadsOk(db, capture, payloads) && Binds(db, capture, payloads)
    ensures Locals(AfterRefresh(db, capture, payloads).rows, capture) == {Local(db, capture, payloads)}
    ensures var refreshed, l, u := AfterRefresh(db, capture, payloads), Local(db, capture, payloads),
              Unmatched(db.rows, capture, payloads)[0];
            PassCapture(db, capture, payloads).db
              == refreshed.(rows := refreshed.rows[l := UpdateFromPayload(refreshed.rows[l], u)])
            && PassCapture(db, capture, payloads).adopted == [u.id]
  {
    var refreshed := AfterRefresh(db, capture, payloads);
    RefreshKeeps(db, capture, payloads);
    OnlyLocal(refreshed, capture);
    UnmatchedUnheard(db, capture, payloads);
    var l, u := Local(db, capture, payloads), Unmatched(db.rows, capture, payloads)[0];
    hide RefreshRows, TableOk, Unmatched, SettleRefund, RefreshSignals;
    SettleUnheard(refreshed, l, u);
  }

  lemma PassAdopts(db: Db, capture: nat, payloads: seq<Payload>)
    requires TableOk(db) && !Binds(db, capture, payloads)
    ensures var adopted := AdoptAll(AfterRefresh(db, capture, payloads),
      capture, Unmatched(db.rows, capture, payloads));
            PassCapture(db, capture, payloads).db == adopted.db
            && PassCapture(db, capture, payloads).adopted == adopted.adopted
  {}

  lemma KnownAfterBind(rows: map<nat, Refund>, refreshed: map<nat, Refund>,
    l: nat, u: Payload, capture: nat, p: Payload)
    requires KeepsIds(rows, refreshed) && l in rows && rows[l].capture == capture && u.id.Some?
    requires p == u || (Knows(rows, capture, p) && rows[l].paypalId != p.id)
    ensures Knows(refreshed[l := UpdateFromPayload(refreshed[l], u)], capture, p)
  {
    var after := refreshed[l := UpdateFromPayload(refreshed[l], u)];
    if p == u {
      assert after[l].paypalId == p.id && after[l].capture == capture;
    } else {
      var pk :| pk in rows && rows[pk].capture == capture && rows[pk].paypalId == p.id;
      assert pk != l && after[pk] == refreshed[pk];
    }
  }

  lemma BoundOrKnown(rows: map<nat, Refund>, capture: nat, payloads: seq<Payload>, i: nat)
    requires i < |payloads| && |Unmatched(rows, capture, payloads)| == 1
    ensures payloads[i] == Unmatched(rows, capture, payloads)[0] || Knows(rows, capture, payloads[i])
  {
    UnmatchedMembers(rows, capture, payloads);
    assert payloads[i] in payloads;
  }

  /** The bound row exists, belongs to the capture, and takes the id of a refund no row carries. */
  lemma BoundRow(db: Db, capture: nat, payloads: seq<Payload>)
    requires TableOk(db) && PayloadsOk(db, capture, payloads) && Binds(db, capture, payloads)
    ensures var l := Local(db, capture, payloads); l in db.rows && db.rows[l].capture == capture
    ensures Unmatched(db.rows, capture, payloads)[0].id.Some?
  {
    PassBinds(db, capture, payloads);
    RefreshKeeps(db, capture, payloads);
    UnmatchedUnheard(db, capture, payloads);
    assert Local(db, capture, payloads) in Locals(AfterRefresh(db, capture, payloads).rows, capture);
  }

  lemma BindCarries(db: Db, capture: nat, payloads: seq<Payload>, i: nat)
    requires TableOk(db) && PayloadsOk(db, capture, payloads) && Binds(db, capture, payloads) && i < |payloads|
    requires db.rows[Local(db, capture, payloads)].paypalId != payloads[i].id
    ensures Knows(PassCapture(db, capture, payloads).db.rows, capture, payloads[i])
  {
    PassBinds(db, capture, payloads);
    BoundRow(db, capture, payloads);
    BoundOrKnown(db.rows, capture, payloads, i);
    RefreshKeeps(db, capture, payloads);
    var refreshed, u := AfterRefresh(db, capture, payloads), Unmatched(db.rows, capture, payloads)[0];
    hide PassCapture, RefreshRows, TableOk, Local, Unmatched, PayloadsOk, Knows, Locals, UpdateFromPayload;
    KnownAfterBind(db.rows, refreshed.rows, Local(db, capture, payloads), u, capture, payloads[i]);
  }

  lemma BoundTableOk(db: Db, capture: nat, payloads: seq<Payload>)
    requires TableOk(db) && PayloadsOk(db, capture, payloads) && Binds(db, capture, payloads)
    ensures TableOk(PassCapture(db, capture, payloads).db)
  {
    var refreshed := AfterRefresh(db, capture, payloads);
    var l, u := Local(db, capture, payloads), Unmatched(db.rows, capture, payloads)[0];
    PassBinds(db, capture, payloads);
    RefreshKeeps(db, capture, payloads);
    assert l in Locals(refreshed.rows, capture);
    UnmatchedUnheard(db, capture, payloads);
    hide PassCapture, RefreshRows, Local;
    SavedTableOk(refreshed, l, UpdateFromPayload(refreshed.rows[l], u));
  }

  /** A bind that overwrites a listed id leaves that refund without a row. */
  lemma RebindLoses(db: Db, capture: nat, payloads: seq<Payload>)
    requires TableOk(db) && PayloadsOk(db, capture, payloads) && Rebinds(db, capture, payloads)
    ensures exists i :: 0 <= i < |payloads| && !Knows(PassCapture(db, capture, payloads).db.rows, capture, payloads[i])
  {
    var refreshed := AfterRefresh(db, capture, payloads);
    var l, u := Local(db, capture, payloads), Unmatched(db.rows, capture, payloads)[0];
    PassBinds(db, capture, payloads);
    RefreshKeeps(db, capture, payloads);
    UnmatchedUnheard(db, capture, payloads);
    assert l in Locals(refreshed.rows, capture);
    var i :| 0 <= i < |payloads| && payloads[i].id == db.rows[l].paypalId;
    assert refreshed.rows[l].paypalId == payloads[i].id != u.id;
    assert !Knows(PassCapture(db, capture, payloads).db.rows, capture, payloads[i]);
  }

  lemma PassKeepsTable(db: Db, capture: nat, payloads: seq<Payload>)
    requires TableOk(db) && PayloadsOk(db, capture, payloads)
    ensures TableOk(PassCapture(db, capture, payloads).db)
    ensures PassCapture(db, capture, payloads).db.captures == db.captures
    ensures !Binds(db, capture, payloads) ==>
      Gathers(AfterRefresh(db, capture, payloads), PassCapture(db, capture, payloads).db, capture,
              Unmatched(db.rows, capture, payloads))
  {
    if Binds(db, capture, payloads) {
      BoundTableOk(db, capture, payloads);
      PassBinds(db, capture, payloads);
    } else {
      RefreshKeeps(db, capture, payloads);
      UnmatchedUnheard(db, capture, payloads);
      PassAdopts(db, capture, payloads);
      var refreshed, unmatched := AfterRefresh(db, capture, payloads), Unmatched(db.rows, capture, payloads);
      hide PassCapture, RefreshRows, TableOk, Unmatched;
      AdoptAllGathers(refreshed, capture, unmatched);
    }
  }

  /**
   After one pass every listed refund is carried by exactly one row, under its capture,
   exactly when the pass did not bind an attempt that already carried another listed refund.
   */
  lemma CarriedOnceIff(db: Db, capture: nat, payloads: seq<Payload>)
    requires TableOk(db) && PayloadsOk(db, capture, payloads)
    ensures !Rebinds(db, capture, payloads) <==> forall i :: 0 <= i < |payloads| ==>
      CarriedOnce(PassCapture(db, capture, payloads).db.rows, capture, payloads[i].id)
  {
    PassKeepsTable(db, capture, payloads);
    var after := PassCapture(db, capture, payloads).db;
    forall i | 0 <= i < |payloads|
      ensures Knows(after.rows, capture, payloads[i]) <==> CarriedOnce(after.rows, capture, payloads[i].id)
    {
      KnownIsCarriedOnce(after, capture, payloads[i]);
    }
    if Rebinds(db, capture, payloads) {
      RebindLoses(db, capture, payloads);
    } else {
      forall i | 0 <= i < |payloads| ensures Knows(after.rows, capture, payloads[i]) {
        if Binds(db, capture, payloads) {
          PassBinds(db, capture, payloads);
          assert payloads[i].id == payloads[i].id;
          BindCarries(db, capture, payloads, i);
        } else {
          AdoptCarries(db, capture, payloads, i);
        }
      }
    }
  }

  lemma AdoptCarries(db: Db, capture: nat, payloads: seq<Payload>, i: nat)
    requires TableOk(db) && PayloadsOk(db, capture, payloads) && !Binds(db, capture, payloads) && i < |payloads|
    ensures Knows(PassCapture(db, capture, payloads).db.rows, capture, payloads[i])
  {
    PassKeepsTable(db, capture, payloads);
    RefreshKeeps(db, capture, payloads);
    UnmatchedMembers(db.rows, capture, payloads);
    var after, unmatched := PassCapture(db, capture, payloads).db, Unmatched(db.rows, capture, payloads);
    hide PassCapture, RefreshRows, TableOk, Unmatched;
    if Knows(db.rows, capture, payloads[i]) {
      var pk :| pk in db.rows && db.rows[pk].capture == capture && db.rows[pk].paypalId == payloads[i].id;
      assert pk in after.rows && after.rows[pk].paypalId == payloads[i].id;
    } else {
      assert payloads[i] in unmatched;
      var j :| 0 <= j < |unmatched| && unmatched[j] == payloads[i];
      assert Knows(after.rows, capture, unmatched[j]);
    }
  }

  // ---------- a second pass ----------

  /** Every listed refund has its row, and every row of the capture agrees with the list. */
  ghost predicate Quiet(rows: map<nat, Refund>, capture: nat, payloads: seq<Payload>) {
    && (forall i :: 0 <= i < |payloads| ==> Knows(rows, capture, payloads[i]))
    && (forall pk :: pk in rows && rows[pk].capture == capture ==> Agrees(rows[pk], payloads))
  }

  ghost predicate AllAgree(rows: map<nat, Refund>, capture: nat, payloads: seq<Payload>) {
    forall pk :: pk in rows && rows[pk].capture == capture ==> Agrees(rows[pk], payloads)
  }

  lemma AgreeingRows(rows: map<nat, Refund>, capture: nat, payloads: seq<Payload>)
    requires AllAgree(rows, capture, payloads)
    ensures RefreshRows(rows, capture, payloads) == rows
  {
    forall pk | pk in rows && rows[pk].capture == capture ensures Refreshed(rows[pk], payloads) == rows[pk] {
      AgreeingUnchanged(rows[pk], payloads);
    }
  }

  lemma {:induction false} AgreeingSilent(rows: map<nat, Refund>, capture: nat, payloads: seq<Payload>, bound: nat)
    requires AllAgree(rows, capture, payloads)
    ensures RefreshSignals(rows, capture, payloads, bound) == []
  {
    if payloads != [] {
      var before, last := payloads[..|payloads| - 1], payloads[|payloads| - 1];
      assert AllAgree(rows, capture, before);
      AgreeingSilent(rows, capture, before, bound);
      AgreeingRows(rows, capture, before);
      hide Refreshed;
      var pk := if last.id.Some? then First(rows, WithPaypalId(last.id.value), bound) else None;
      if pk.Some? && rows[pk.value].capture == capture {
        assert Agrees(rows[pk.value], payloads);
        assert payloads[|payloads| - 1].id == rows[pk.value].paypalId;
        assert UpdateFromPayload(rows[pk.value], last) == rows[pk.value];
      }
      assert RefreshSignal(rows, capture, last, bound) == [];
    }
  }

  lemma QuietIsNoOp(db: Db, capture: nat, payloads: seq<Payload>)
    requires Quiet(db.rows, capture, payloads)
    ensures PassCapture(db, capture, payloads) == Pass(db, [], [])
  {
    assert AllAgree(db.rows, capture, payloads);
    AgreeingRows(db.rows, capture, payloads);
    AgreeingSilent(db.rows, capture, payloads, db.nextPk);
    UnmatchedEmpty(db.rows, capture, payloads);
  }

  /** A row holding an unmatched refund's own id and status agrees with the whole list. */
  lemma OwnPayloadAgrees(row: Refund, p: Payload, payloads: seq<Payload>)
    requires p in payloads && DistinctIds(payloads) && row.paypalId == p.id && UpdateFromPayload(row, p) == row
    ensures Agrees(row, payloads)
  {
    var k :| 0 <= k < |payloads| && payloads[k] == p;
    assert forall i :: 0 <= i < |payloads| && i != k ==> payloads[i].id != payloads[k].id;
  }

  ghost predicate Owns(row: Refund, p: Payload) {
    p.id.Some? && row.paypalId == p.id && UpdateFromPayload(row, p) == row
  }

  lemma FlaggedOwns(row: Refund, capture: nat, p: Payload)
    requires Owns(row, p) && Honest(p)
    ensures Owns(Flagged(row, capture), p)
  {}

  /** Each created row agrees with one of the refunds it was created for. */
  lemma {:induction false} CreatedOwn(db: Db, capture: nat, unmatched: seq<Payload>, k: nat) returns (j: nat)
    requires capture in db.captures && DistinctIds(unmatched) && k < |Created(db, capture, unmatched)|
    requires forall i :: 0 <= i < |unmatched| ==> Honest(unmatched[i])
    ensures j < |unmatched| && Owns(Created(db, capture, unmatched)[k], unmatched[j])
  {
    var before, last := unmatched[..|unmatched| - 1], unmatched[|unmatched| - 1];
    var created := Created(db, capture, before);
    if HasId(created, last.id) {
      var twin :| 0 <= twin < |created| && created[twin].paypalId == last.id;
      var i := CreatedOwn(db, capture, before, twin);
      assert false;
    } else if k < |created| {
      j := CreatedOwn(db, capture, before, k);
      FlaggedOwns(created[k], capture, unmatched[j]);
    } else {
      j := |unmatched| - 1;
    }
  }

  lemma AdoptingAgrees(db: Db, after: Db, capture: nat, payloads: seq<Payload>, unmatched: seq<Payload>)
    requires PayloadsOk(db, capture, payloads) && DistinctIds(payloads) && DistinctIds(unmatched)
    requires Extends(db, after, capture, unmatched != [], Created(db, capture, unmatched))
    requires forall i :: 0 <= i < |unmatched| ==> unmatched[i] in payloads
    requires forall pk :: pk in db.rows && db.rows[pk].capture == capture ==>
      Agrees(db.rows[pk], payloads) && Agrees(Flagged(db.rows[pk], capture), payloads)
    ensures AllAgree(after.rows, capture, payloads)
  {
    hide Agrees, PayloadsOk, Created, DistinctIds;
    forall pk | pk in after.rows && after.rows[pk].capture == capture ensures Agrees(after.rows[pk], payloads) {
      if pk !in db.rows {
        CreatedAgrees(db, capture, payloads, unmatched, pk - db.nextPk);
      }
    }
  }

  lemma CreatedAgrees(db: Db, capture: nat, payloads: seq<Payload>, unmatched: seq<Payload>, i: nat)
    requires PayloadsOk(db, capture, payloads) && DistinctIds(payloads) && DistinctIds(unmatched)
    requires forall j :: 0 <= j < |unmatched| ==> unmatched[j] in payloads
    requires i < |Created(db, capture, unmatched)|
    ensures Agrees(Created(db, capture, unmatched)[i], payloads)
  {
    assert forall j :: 0 <= j < |unmatched| ==> Honest(unmatched[j]);
    hide Agrees, PayloadsOk, DistinctIds, Created;
    var j := CreatedOwn(db, capture, unmatched, i);
    OwnPayloadAgrees(Created(db, capture, unmatched)[i], unmatched[j], payloads);
  }

  lemma AdoptedAgree(db: Db, capture: nat, payloads: seq<Payload>)
    requires TableOk(db) && PayloadsOk(db, capture, payloads) && DistinctIds(payloads) && !Binds(db, capture, payloads)
    ensures AllAgree(PassCapture(db, capture, payloads).db.rows, capture, payloads)
  {
    var refreshed, unmatched := AfterRefresh(db, capture, payloads), Unmatched(db.rows, capture, payloads);
    forall pk | pk in refreshed.rows && refreshed.rows[pk].capture == capture
      ensures Agrees(refreshed.rows[pk], payloads) && Agrees(Flagged(refreshed.rows[pk], capture), payloads)
    {
      RefreshedKeeps(db.rows[pk], payloads);
      RefreshedAgrees(db.rows[pk], payloads);
    }
    RefreshKeeps(db, capture, payloads);
    UnmatchedUnheard(db, capture, payloads);
    UnmatchedDistinct(db.rows, capture, payloads);
    UnmatchedMembers(db.rows, capture, payloads);
    PassAdopts(db, capture, payloads);
    assert PayloadsOk(refreshed, capture, payloads);
    hide PassCapture, RefreshRows, Unmatched, Agrees, Unheard, Flagged, PayloadsOk, DistinctIds, AdoptAll, TableOk;
    AdoptAllEffect(refreshed, capture, unmatched);
    AdoptingAgrees(refreshed, PassCapture(db, capture, payloads).db, capture, payloads, unmatched);
  }

  lemma BoundAgree(db: Db, capture: nat, payloads: seq<Payload>)
    requires TableOk(db) && PayloadsOk(db, capture, payloads) && DistinctIds(payloads) && Binds(db, capture, payloads)
    ensures AllAgree(PassCapture(db, capture, payloads).db.rows, capture, payloads)
  {
    var refreshed, unmatched := AfterRefresh(db, capture, payloads), Unmatched(db.rows, capture, payloads);
    var after, l := PassCapture(db, capture, payloads).db, Local(db, capture, payloads);
    PassBinds(db, capture, payloads);
    UnmatchedMembers(db.rows, capture, payloads);
    UnmatchedUnheard(db, capture, payloads);
    forall pk | pk in db.rows ensures Agrees(refreshed.rows[pk], payloads) || refreshed.rows[pk].capture != capture {
      RefreshedAgrees(db.rows[pk], payloads);
    }
    assert l in Locals(refreshed.rows, capture);
    var bound := UpdateFromPayload(refreshed.rows[l], unmatched[0]);
    assert unmatched[0] in unmatched;
    OwnPayloadAgrees(bound, unmatched[0], payloads);
    hide PassCapture, RefreshRows, Unmatched, Agrees, Unheard, UpdateFromPayload;
    assert after.rows == refreshed.rows[l := bound];
  }

  /** Reconciling twice changes nothing more, adopts nothing and signals nothing, exactly when the
      first pass did not rebind. */
  lemma SecondPassIff(db: Db, capture: nat, payloads: seq<Payload>)
    requires TableOk(db) && PayloadsOk(db, capture, payloads) && DistinctIds(payloads)
    ensures var after := PassCapture(db, capture, payloads).db;
            PassCapture(after, capture, payloads) == Pass(after, [], []) <==> !Rebinds(db, capture, payloads)
  {
    var after := PassCapture(db, capture, payloads).db;
    if Rebinds(db, capture, payloads) {
      RebindLoses(db, capture, payloads);
      UnmatchedEmpty(after.rows, capture, payloads);
      assert PassCapture(after, capture, payloads).adopted != [];
    } else {
      PassIsQuiet(db, capture, payloads);
      QuietIsNoOp(after, capture, payloads);
    }
  }

  lemma PassIsQuiet(db: Db, capture: nat, payloads: seq<Payload>)
    requires TableOk(db) && PayloadsOk(db, capture, payloads) && DistinctIds(payloads)
    requires !Rebinds(db, capture, payloads)
    ensures Quiet(PassCapture(db, capture, payloads).db.rows, capture, payloads)
  {
    CarriedOnceIff(db, capture, payloads);
    var after := PassCapture(db, capture, payloads).db;
    forall i | 0 <= i < |payloads| ensures Knows(after.rows, capture, payloads[i]) {
      assert CarriedOnce(after.rows, capture, payloads[i].id);
    }
    if Binds(db, capture, payloads) {
      BoundAgree(db, capture, payloads);
    } else {
      AdoptedAgree(db, capture, payloads);
    }
  }

  // ---------- what one pass does, row by row ----------

  /** What becomes of an existing row. */
  function Kept(db: Db, capture: nat, payloads: seq<Payload>, pk: nat): Refund
    requires pk in db.rows
  {
    var unmatched := Unmatched(db.rows, capture, payloads);
    if db.rows[pk].capture != capture then db.rows[pk]
    else
      var row := Refreshed(db.rows[pk], payloads);
      if !row.status.Initiated? || unmatched == [] then row
      else if Binds(db, capture, payloads) then UpdateFromPayload(row, unmatched[0])
      else row.(status := Unresolved)
  }

  /** The rows the pass inserts, in order. */
  function Inserted(db: Db, capture: nat, payloads: seq<Payload>): seq<Refund>
    requires capture in db.captures
  {
    if Binds(db, capture, payloads) then [] else Created(db, capture, Unmatched(db.rows, capture, payloads))
  }

  predicate Holds(rows: map<nat, Refund>, pk: nat, row: Refund) {
    pk in rows && rows[pk] == row
  }

  /** From `base` on the table holds these new rows of the capture, and no others. */
  ghost predicate Lands(db: Db, after: Db, capture: nat, inserted: seq<Refund>, base: nat) {
    && (forall i :: 0 <= i < |inserted| ==> Holds(after.rows, base + i, inserted[i]))
    && (forall pk :: pk in after.rows && pk !in db.rows && after.rows[pk].capture == capture ==>
          base <= pk < base + |inserted|)
  }

  lemma {:induction false} CreatedSame(db: Db, other: Db, capture: nat, unmatched: seq<Payload>)
    requires db.captures == other.captures && capture in db.captures
    ensures Created(db, capture, unmatched) == Created(other, capture, unmatched)
    ensures forall i :: 0 <= i < |Created(db, capture, unmatched)| ==>
      Created(db, capture, unmatched)[i].capture == capture
  {
    if unmatched != [] {
      CreatedSame(db, other, capture, unmatched[..|unmatched| - 1]);
    }
  }

  ghost predicate Effect(db: Db, after: Db, capture: nat, payloads: seq<Payload>)
    requires capture in db.captures
  {
    && (forall pk :: pk in db.rows ==> pk in after.rows && after.rows[pk] == Kept(db, capture, payloads, pk))
    && (forall pk :: pk in after.rows && pk !in db.rows ==> after.rows[pk].capture == capture)
    && Lands(db, after, capture, Inserted(db, capture, payloads), db.nextPk)
  }

  lemma BoundKept(db: Db, capture: nat, payloads: seq<Payload>, pk: nat)
    requires TableOk(db) && Binds(db, capture, payloads) && pk in db.rows
    requires Locals(AfterRefresh(db, capture, payloads).rows, capture) == {Local(db, capture, payloads)}
    ensures var row, l := AfterRefresh(db, capture, payloads).rows[pk], Local(db, capture, payloads);
            Kept(db, capture, payloads, pk)
              == if pk == l then UpdateFromPayload(row, Unmatched(db.rows, capture, payloads)[0]) else row
  {
    RefreshedKeeps(db.rows[pk], payloads);
    hide TableOk, Refreshed, Local, Unmatched;
    assert pk == Local(db, capture, payloads) <==> pk in Locals(AfterRefresh(db, capture, payloads).rows, capture);
  }

  lemma BindingIsEffect(db: Db, refreshed: Db, after: Db, l: nat, bound: Refund, capture: nat, payloads: seq<Payload>)
    requires capture in db.captures && refreshed.rows.Keys == db.rows.Keys && l in db.rows
    requires after.rows == refreshed.rows[l := bound] && Inserted(db, capture, payloads) == []
    requires forall pk :: pk in db.rows ==>
      Kept(db, capture, payloads, pk) == if pk == l then bound else refreshed.rows[pk]
    ensures Effect(db, after, capture, payloads)
  {
    hide Kept, Inserted;
  }

  lemma BoundEffect(db: Db, capture: nat, payloads: seq<Payload>)
    requires TableOk(db) && PayloadsOk(db, capture, payloads) && Binds(db, capture, payloads)
    ensures Effect(db, PassCapture(db, capture, payloads).db, capture, payloads)
  {
    var refreshed, l := AfterRefresh(db, capture, payloads), Local(db, capture, payloads);
    var u := Unmatched(db.rows, capture, payloads)[0];
    PassBinds(db, capture, payloads);
    assert l in Locals(refreshed.rows, capture);
    assert refreshed.rows.Keys == db.rows.Keys && Inserted(db, capture, payloads) == [];
    hide PassCapture, PayloadsOk, Unmatched, Inserted, Refreshed, Kept, Effect, TableOk, UpdateFromPayload, Local;
    forall pk | pk in db.rows
      ensures Kept(db, capture, payloads, pk) ==
        if pk == l then UpdateFromPayload(refreshed.rows[l], u) else refreshed.rows[pk]
    {
      BoundKept(db, capture, payloads, pk);
    }
    BindingIsEffect(db, refreshed, PassCapture(db, capture, payloads).db, l, UpdateFromPayload(refreshed.rows[l], u),
                    capture, payloads);
  }

  lemma AdoptedKept(db: Db, capture: nat, payloads: seq<Payload>, pk: nat)
    requires !Binds(db, capture, payloads) && pk in db.rows
    ensures var row := AfterRefresh(db, capture, payloads).rows[pk];
            Kept(db, capture, payloads, pk) ==
              if Unmatched(db.rows, capture, payloads) != [] then Flagged(row, capture) else row
  {
    RefreshedKeeps(db.rows[pk], payloads);
  }

  lemma ExtendingIsEffect(db: Db, refreshed: Db, after: Db, capture: nat, payloads: seq<Payload>, flag: bool)
    requires capture in db.captures && refreshed.nextPk == db.nextPk && refreshed.rows.Keys == db.rows.Keys
    requires Extends(refreshed, after, capture, flag, Inserted(db, capture, payloads))
    requires forall pk :: pk in db.rows ==> pk < db.nextPk
    requires forall pk :: pk in db.rows ==>
      Kept(db, capture, payloads, pk) == if flag then Flagged(refreshed.rows[pk], capture) else refreshed.rows[pk]
    requires forall i :: 0 <= i < |Inserted(db, capture, payloads)| ==>
      Inserted(db, capture, payloads)[i].capture == capture
    ensures Effect(db, after, capture, payloads)
  {
    hide Kept, Inserted, Flagged;
    var created := Inserted(db, capture, payloads);
    forall pk | pk in after.rows && pk !in db.rows
      ensures db.nextPk <= pk < db.nextPk + |created| && after.rows[pk].capture == capture
    {
      assert pk !in refreshed.rows;
      assert after.rows[pk] == created[pk - db.nextPk];
    }
  }

  lemma AdoptedEffect(db: Db, capture: nat, payloads: seq<Payload>)
    requires TableOk(db) && PayloadsOk(db, capture, payloads) && !Binds(db, capture, payloads)
    ensures Effect(db, PassCapture(db, capture, payloads).db, capture, payloads)
  {
    var refreshed, unmatched := AfterRefresh(db, capture, payloads), Unmatched(db.rows, capture, payloads);
    RefreshKeeps(db, capture, payloads);
    UnmatchedUnheard(db, capture, payloads);
    PassAdopts(db, capture, payloads);
    CreatedSame(db, refreshed, capture, unmatched);
    AdoptAllEffect(refreshed, capture, unmatched);
    assert Inserted(db, capture, payloads) == Created(refreshed, capture, unmatched);
    assert refreshed.rows.Keys == db.rows.Keys;
    forall pk | pk in db.rows ensures pk < db.nextPk {}
    hide PassCapture, Unmatched, Created, Refreshed, TableOk, Unheard,
      PayloadsOk, AdoptAll, Binds, Extends, Effect, Kept, Inserted;
    forall pk | pk in db.rows
      ensures Kept(db, capture, payloads, pk) ==
        if unmatched != [] then Flagged(refreshed.rows[pk], capture) else refreshed.rows[pk]
    {
      AdoptedKept(db, capture, payloads, pk);
    }
    ExtendingIsEffect(db, refreshed, PassCapture(db, capture, payloads).db, capture, payloads, unmatched != []);
  }

  /**
   A local attempt is bound only when one INITIATED attempt faces one unmatched refund; in every
   other case with unmatched refunds all INITIATED attempts become UNRESOLVED, and the
   refunds get rows of their own.  Other captures' rows stay as they are.
   */
  lemma PassEffect(db: Db, capture: nat, payloads: seq<Payload>)
    requires TableOk(db) && PayloadsOk(db, capture, payloads)
    ensures Effect(db, PassCapture(db, capture, payloads).db, capture, payloads)
  {
    if Binds(db, capture, payloads) {
      BoundEffect(db, capture, payloads);
    } else {
      AdoptedEffect(db, capture, payloads);
    }
  }

  // ---------- it depends on the capture's own rows only ----------

  function Under(rows: map<nat, Refund>, capture: nat): map<nat, Refund> {
    map pk | pk in rows && rows[pk].capture == capture :: rows[pk]
  }

  lemma KnowsLocal(rows: map<nat, Refund>, other: map<nat, Refund>, capture: nat, p: Payload)
    requires Under(rows, capture) == Under(other, capture)
    ensures Knows(rows, capture, p) == Knows(other, capture, p)
  {
    if pk :| pk in rows && rows[pk].capture == capture && rows[pk].paypalId == p.id {
      assert pk in Under(rows, capture) && pk in Under(other, capture);
      assert Under(other, capture)[pk] == rows[pk];
    }
    if pk :| pk in other && other[pk].capture == capture && other[pk].paypalId == p.id {
      assert pk in Under(other, capture) && pk in Under(rows, capture);
      assert Under(rows, capture)[pk] == other[pk];
    }
  }

  lemma {:induction false} UnmatchedLocal(rows: map<nat, Refund>, other: map<nat, Refund>, capture: nat,
                                          payloads: seq<Payload>)
    requires Under(rows, capture) == Under(other, capture)
    ensures Unmatched(rows, capture, payloads) == Unmatched(other, capture, payloads)
  {
    if payloads != [] {
      KnowsLocal(rows, other, capture, payloads[|payloads| - 1]);
      UnmatchedLocal(rows, other, capture, payloads[..|payloads| - 1]);
    }
  }

  lemma BindsLocal(db: Db, other: Db, capture: nat, payloads: seq<Payload>)
    requires Under(db.rows, capture) == Under(other.rows, capture)
    ensures Binds(db, capture, payloads) == Binds(other, capture, payloads)
    ensures Locals(RefreshRows(db.rows, capture, payloads), capture)
         == Locals(RefreshRows(other.rows, capture, payloads), capture)
  {
    UnmatchedLocal(db.rows, other.rows, capture, payloads);
    var mine, theirs := RefreshRows(db.rows, capture, payloads), RefreshRows(other.rows, capture, payloads);
    forall pk ensures pk in Locals(mine, capture) <==> pk in Locals(theirs, capture) {
      assert pk in Under(db.rows, capture) <==> pk in Under(other.rows, capture);
      assert pk in Under(db.rows, capture) ==> Under(db.rows, capture)[pk] == Under(other.rows, capture)[pk];
      if pk in db.rows {
        RefreshedKeeps(db.rows[pk], payloads);
      }
      if pk in other.rows {
        RefreshedKeeps(other.rows[pk], payloads);
      }
    }
    assert Locals(mine, capture) == Locals(theirs, capture);
  }

  /** Two tables with the same rows under the capture: the pass does the same to them, and rebinds
      in both or neither. */
  lemma PassLocal(db: Db, other: Db, capture: nat, payloads: seq<Payload>)
    requires Under(db.rows, capture) == Under(other.rows, capture) && db.captures == other.captures
    requires capture in db.captures
    ensures Inserted(db, capture, payloads) == Inserted(other, capture, payloads)
    ensures forall pk :: pk in Under(db.rows, capture) ==>
      pk in other.rows && Kept(db, capture, payloads, pk) == Kept(other, capture, payloads, pk)
    ensures Rebinds(db, capture, payloads) == Rebinds(other, capture, payloads)
  {
    UnmatchedLocal(db.rows, other.rows, capture, payloads);
    BindsLocal(db, other, capture, payloads);
    CreatedSame(db, other, capture, Unmatched(db.rows, capture, payloads));
    forall pk | pk in Under(db.rows, capture) ensures pk in other.rows && other.rows[pk] == db.rows[pk] {
      assert Under(other.rows, capture)[pk] == db.rows[pk];
    }
    hide Unmatched, Refreshed, Created;
    forall pk | pk in Locals(RefreshRows(db.rows, capture, payloads), capture)
      ensures pk in Under(db.rows, capture)
    {
      RefreshedKeeps(db.rows[pk], payloads);
    }
  }

  lemma QuietLocal(rows: map<nat, Refund>, other: map<nat, Refund>, capture: nat, payloads: seq<Payload>)
    requires Under(rows, capture) == Under(other, capture) && Quiet(rows, capture, payloads)
    ensures Quiet(other, capture, payloads)
  {
    forall i | 0 <= i < |payloads| ensures Knows(other, capture, payloads[i]) {
      KnowsLocal(rows, other, capture, payloads[i]);
    }
    hide Agrees;
    forall pk | pk in other && other[pk].capture == capture ensures Agrees(other[pk], payloads) {
      assert pk in Under(other, capture) && Under(rows, capture)[pk] == other[pk];
    }
  }

  /** A pass leaves every other capture's rows as they are. */
  lemma PassFrame(db: Db, capture: nat, payloads: seq<Payload>, other: nat)
    requires TableOk(db) && PayloadsOk(db, capture, payloads) && other != capture
    ensures Under(PassCapture(db, capture, payloads).db.rows, other) == Under(db.rows, other)
  {
    PassEffect(db, capture, payloads);
    hide PassCapture, TableOk, PayloadsOk, Unmatched, Inserted;
    var after := PassCapture(db, capture, payloads).db;
    forall pk | pk in db.rows ensures after.rows[pk].capture == db.rows[pk].capture {
      RefreshedKeeps(db.rows[pk], payloads);
    }
  }

  // ---------- the case in which a pass loses a refund ----------

  const CAPTURE_0 := Capture(1, Some("CAPTURE"), 10, "COMPLETED", true)

  /** An attempt PayPal answered with id A and a status the library does not know. */
  const ANSWERED := Refund(0, Some("key"), Some("A"), Initiated, 4, "", "", None, [])

  const ANSWERED_DB := Db(map[0 := CAPTURE_0], map[0 := ANSWERED], 1)

  /** PayPal lists A, still with an unknown status, and B, issued elsewhere. */
  const LISTED := [Payload(Some("A"), None, Some(4)), Payload(Some("B"), Some(Completed), Some(6))]

  /** The attempt is bound to B, and no row carries A any more. */
  lemma RebindHappens()
    ensures TableOk(ANSWERED_DB) && PayloadsOk(ANSWERED_DB, 0, LISTED) && DistinctIds(LISTED)
    ensures Rebinds(ANSWERED_DB, 0, LISTED)
    ensures PassCapture(ANSWERED_DB, 0, LISTED).db.rows
         == map[0 := ANSWERED.(paypalId := Some("B"), status := Completed)]
  {
    var refreshed, a, b := AfterRefresh(ANSWERED_DB, 0, LISTED), LISTED[0], LISTED[1];
    assert LISTED[..1] == [a] && [a][..0] == [];
    assert Refreshed(ANSWERED, []) == ANSWERED;
    assert Refreshed(ANSWERED, [a]) == ANSWERED;
    assert Refreshed(ANSWERED, LISTED) == ANSWERED;
    assert refreshed.rows == ANSWERED_DB.rows;
    assert Knows(ANSWERED_DB.rows, 0, a) by {
      assert ANSWERED_DB.rows[0].paypalId == a.id;
    }
    assert !Knows(ANSWERED_DB.rows, 0, b);
    assert Unmatched(ANSWERED_DB.rows, 0, []) == [];
    assert Unmatched(ANSWERED_DB.rows, 0, [a]) == [];
    assert Unmatched(ANSWERED_DB.rows, 0, LISTED) == [b];
    assert Locals(refreshed.rows, 0) == {0};
    assert 0 in Locals(refreshed.rows, 0) && LISTED[0].id == ANSWERED_DB.rows[0].paypalId;
    PassBinds(ANSWERED_DB, 0, LISTED);
    assert Local(ANSWERED_DB, 0, LISTED) in {0};
  }
}
