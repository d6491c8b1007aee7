/**
 Which refunds reconciliation announces (payment_refunded in paypal_checkout/orders.py and
 paypal_checkout/payments.py): each refund that PayPal newly reports completed, once, and no other.
 */
module RefundSignals {
  import opened Options
  import opened RefundRows
  import opened RefundReconcile
  import opened OrderReconcile
  import opened RefundPasses
  import opened RefundStatuses

  /** PayPal reports the refund completed, and no row of the capture has recorded that yet. */
  ghost predicate NewlyCompleted(rows: map<nat, Refund>, capture: nat, p: Payload) {
    && p.status == Some(Completed)
    && forall pk :: pk in rows && rows[pk].capture == capture && rows[pk].paypalId == p.id ==>
         rows[pk].status != Completed
  }

  ghost predicate Distinct(ids: seq<Option<string>>) {
    forall i, j :: 0 <= i < j < |ids| ==> ids[i] != ids[j]
  }

  /** The ids announced are those of the newly completed refunds of the list that pass the filter, each once. */
  ghost predicate Announces(ids: seq<Option<string>>, rows: map<nat, Refund>, capture: nat, payloads: seq<Payload>) {
    && Distinct(ids)
    && (forall id :: id in ids ==>
          exists i :: 0 <= i < |payloads| && payloads[i].id == id && NewlyCompleted(rows, capture, payloads[i]))
    && (forall i :: 0 <= i < |payloads| && NewlyCompleted(rows, capture, payloads[i]) ==> payloads[i].id in ids)
  }

  // ---------- the refresh loop ----------

  /** The payloads of the list that a row of the capture already carries. */
  function Known(rows: map<nat, Refund>, capture: nat, payloads: seq<Payload>): seq<Payload> {
    if payloads == [] then []
    else
      var last := payloads[|payloads| - 1];
      Known(rows, capture, payloads[..|payloads| - 1]) + if Knows(rows, capture, last) then [last] else []
  }

  lemma {:induction false} KnownMembers(rows: map<nat, Refund>, capture: nat, payloads: seq<Payload>)
    ensures forall p :: p in Known(rows, capture, payloads) <==> p in payloads && Knows(rows, capture, p)
  {
    if payloads != [] {
      KnownMembers(rows, capture, payloads[..|payloads| - 1]);
      assert payloads == payloads[..|payloads| - 1] + [payloads[|payloads| - 1]];
    }
  }

  /** The last payload's row is as it was, so it is announced exactly when this payload completes it. */
  lemma LastSignal(db: Db, capture: nat, payloads: seq<Payload>)
    requires TableOk(db) && DistinctIds(payloads) && payloads != [] && payloads[|payloads| - 1].id.Some?
    ensures var n := |payloads| - 1;
      RefreshSignal(RefreshRows(db.rows, capture, payloads[..n]), capture, payloads[n], db.nextPk) ==
        if Knows(db.rows, capture, payloads[n]) && NewlyCompleted(db.rows, capture, payloads[n])
        then [payloads[n].id] else []
  {
    var n := |payloads| - 1;
    var front, last := payloads[..n], payloads[n];
    var before := db.(rows := RefreshRows(db.rows, capture, front));
    RefreshKeeps(db, capture, front);
    FirstKept(db, before, last.id.value);
    FirstKnows(db, capture, last);
    var pk := First(db.rows, WithPaypalId(last.id.value), db.nextPk);
    if pk.Some? && db.rows[pk.value].capture == capture {
      RefreshedUnnamed(db.rows[pk.value], front);
      assert before.rows[pk.value] == db.rows[pk.value];
      assert forall q :: q in db.rows && db.rows[q].paypalId == last.id ==> q == pk.value;
    }
    hide RefreshRows;
  }

  lemma {:induction false} RefreshAnnounces(db: Db, capture: nat, payloads: seq<Payload>)
    requires TableOk(db) && DistinctIds(payloads) && forall i :: 0 <= i < |payloads| ==> payloads[i].id.Some?
    ensures Announces(RefreshSignals(db.rows, capture, payloads, db.nextPk), db.rows, capture,
                      Known(db.rows, capture, payloads))
  {
    if payloads == [] {
      return;
    }
    var n := |payloads| - 1;
    var front, last := payloads[..n], payloads[n];
    RefreshAnnounces(db, capture, front);
    LastSignal(db, capture, payloads);
    KnownMembers(db.rows, capture, front);
    var ids, known := RefreshSignals(db.rows, capture, front, db.nextPk), Known(db.rows, capture, front);
    assert RefreshSignals(db.rows, capture, payloads, db.nextPk) == ids
      + if Knows(db.rows, capture, last) && NewlyCompleted(db.rows, capture, last) then [last.id] else [];
    assert Known(db.rows, capture, payloads) == known + if Knows(db.rows, capture, last) then [last] else [];
    hide RefreshSignal, RefreshSignals, RefreshRows, Knows, TableOk, Known, NewlyCompleted, Announces;
    if Knows(db.rows, capture, last) {
      AnnouncesOneMore(ids, db.rows, capture, known, last);
    } else {
      assert ids + [] == ids && known + [] == known;
    }
  }

  lemma AnnouncesOneMore(ids: seq<Option<string>>, rows: map<nat, Refund>, capture: nat, payloads: seq<Payload>,
                         p: Payload)
    requires Announces(ids, rows, capture, payloads)
    requires forall q :: q in payloads ==> q.id != p.id
    ensures Announces(ids + if NewlyCompleted(rows, capture, p) then [p.id] else [], rows, capture, payloads + [p])
  {
    hide NewlyCompleted;
    var more := ids + if NewlyCompleted(rows, capture, p) then [p.id] else [];
    var all := payloads + [p];
    forall id | id in more
      ensures exists i :: 0 <= i < |all| && all[i].id == id && NewlyCompleted(rows, capture, all[i])
    {
      if id in ids {
        var i :| 0 <= i < |payloads| && payloads[i].id == id && NewlyCompleted(rows, capture, payloads[i]);
        assert all[i] == payloads[i];
      } else {
        assert all[|payloads|] == p;
      }
    }
    assert p.id !in ids;
    forall i | 0 <= i < |all| && NewlyCompleted(rows, capture, all[i]) ensures all[i].id in more {
      if i < |payloads| {
        assert all[i] == payloads[i];
      }
    }
  }

  // ---------- adopting and binding ----------

  lemma {:induction false} AdoptAnnounces(db: Db, capture: nat, unmatched: seq<Payload>)
    requires TableOk(db) && capture in db.captures && Unheard(db.rows, unmatched) && DistinctIds(unmatched)
    requires forall i :: 0 <= i < |unmatched| ==> unmatched[i].id.Some?
    ensures Announces(AdoptSynced(db, capture, unmatched).signals, db.rows, capture, unmatched)
  {
    if unmatched == [] {
      return;
    }
    var n := |unmatched| - 1;
    var front, p := unmatched[..n], unmatched[n];
    var before := AdoptSynced(db, capture, front).db;
    AdoptAnnounces(db, capture, front);
    AdoptAdvances(db, capture, front);
    AdoptedUnheard(db, capture, unmatched);
    AdoptSignals(before, capture, p);
    assert NewlyCompleted(db.rows, capture, p) <==> p.status == Some(Completed);
    hide TableOk, Unheard, AdoptRemoteRefund, AdoptSignal, NewlyCompleted, Announces;
    AnnouncesOneMore(AdoptSynced(db, capture, front).signals, db.rows, capture, front, p);
    assert front + [p] == unmatched;
  }

  lemma AdoptSignals(db: Db, capture: nat, p: Payload)
    requires capture in db.captures && p.id.Some?
    requires forall pk :: pk in db.rows ==> pk < db.nextPk && db.rows[pk].paypalId != p.id
    ensures AdoptSignal(TableAfter(db, AdoptRemoteRefund(db, capture, p)), p) ==
      if p.status == Some(Completed) then [p.id] else []
  {
    AdoptUnheard(db, capture, p);
    var after, pk := TableAfter(db, AdoptRemoteRefund(db, capture, p)), db.nextPk;
    assert after.rows[pk] == AdoptedRow(db, capture, p);
    assert First(after.rows, WithPaypalId(p.id.value), after.nextPk) == Some(pk);
  }

  lemma BindAnnounces(db: Db, capture: nat, payloads: seq<Payload>)
    requires TableOk(db) && PayloadsOk(db, capture, payloads) && DistinctIds(payloads) && Binds(db, capture, payloads)
    ensures var unmatched := Unmatched(db.rows, capture, payloads);
      RunPass(db, capture, payloads).signals == RefreshSignals(db.rows, capture, payloads, db.nextPk)
        + if unmatched[0].status == Some(Completed) then [unmatched[0].id] else []
  {
    hide RefreshRows, Unmatched, RefreshSynced, TableOk, SettleSynced, PayloadsOk, RefreshSignals, DistinctIds,
      SettleRefund;
    RefreshHandsOver(db, capture, payloads);
    var refreshed, unmatched := RefreshSynced(db, capture, payloads), Unmatched(db.rows, capture, payloads);
    assert |Locals(refreshed.rows, capture)| == 1 && |unmatched| == 1;
    OnlyLocal(refreshed, capture);
    var l := FirstLocal(refreshed, capture).value;
    assert l in Locals(refreshed.rows, capture);
    SettleUnheard(refreshed, l, unmatched[0]);
  }

  // ---------- the pass ----------

  lemma NotInBoth(id: Option<string>, a: seq<Option<string>>, b: seq<Option<string>>, rows: map<nat, Refund>,
                  capture: nat, payloads: seq<Payload>)
    requires DistinctIds(payloads)
    requires Announces(a, rows, capture, Known(rows, capture, payloads))
    requires Announces(b, rows, capture, Unmatched(rows, capture, payloads))
    ensures !(id in a && id in b)
  {
    var known, unmatched := Known(rows, capture, payloads), Unmatched(rows, capture, payloads);
    KnownMembers(rows, capture, payloads);
    UnmatchedMembers(rows, capture, payloads);
    hide Known, Unmatched, NewlyCompleted;
    if id in a && id in b {
      var x :| 0 <= x < |known| && known[x].id == id;
      var y :| 0 <= y < |unmatched| && unmatched[y].id == id;
      SameId(payloads, known[x], unmatched[y]);
    }
  }

  lemma SameId(payloads: seq<Payload>, p: Payload, q: Payload)
    requires DistinctIds(payloads) && p in payloads && q in payloads && p.id == q.id
    ensures p == q
  {
    var i :| 0 <= i < |payloads| && payloads[i] == p;
    var j :| 0 <= j < |payloads| && payloads[j] == q;
  }

  lemma {:induction false} PartsAnnounce(a: seq<Option<string>>, b: seq<Option<string>>, rows: map<nat, Refund>,
                                         capture: nat, payloads: seq<Payload>)
    requires DistinctIds(payloads)
    requires Announces(a, rows, capture, Known(rows, capture, payloads))
    requires Announces(b, rows, capture, Unmatched(rows, capture, payloads))
    ensures Announces(a + b, rows, capture, payloads)
  {
    var known, unmatched := Known(rows, capture, payloads), Unmatched(rows, capture, payloads);
    KnownMembers(rows, capture, payloads);
    UnmatchedMembers(rows, capture, payloads);
    hide Known, Unmatched, NewlyCompleted;
    forall id | id in a + b
      ensures exists i :: 0 <= i < |payloads| && payloads[i].id == id && NewlyCompleted(rows, capture, payloads[i])
    {
      var list := if id in a then known else unmatched;
      var j :| 0 <= j < |list| && list[j].id == id && NewlyCompleted(rows, capture, list[j]);
      assert list[j] in list;
      var i :| 0 <= i < |payloads| && payloads[i] == list[j];
    }
    forall i | 0 <= i < |payloads| && NewlyCompleted(rows, capture, payloads[i]) ensures payloads[i].id in a + b {
      if Knows(rows, capture, payloads[i]) {
        assert payloads[i] in known;
        var j :| 0 <= j < |known| && known[j] == payloads[i];
      } else {
        assert payloads[i] in unmatched;
        var j :| 0 <= j < |unmatched| && unmatched[j] == payloads[i];
      }
    }
    forall i, j | 0 <= i < |a| && 0 <= j < |b| ensures a[i] != b[j] {
      if a[i] == b[j] {
        NotInBoth(a[i], a, b, rows, capture, payloads);
      }
    }
  }

  /** A pass announces exactly the listed refunds that are newly completed, each once. */
  lemma PassAnnounces(db: Db, capture: nat, payloads: seq<Payload>)
    requires TableOk(db) && PayloadsOk(db, capture, payloads) && DistinctIds(payloads)
    ensures Announces(RunPass(db, capture, payloads).signals, db.rows, capture, payloads)
  {
    RefreshAnnounces(db, capture, payloads);
    RestAnnounces(db, capture, payloads);
    var signals := RefreshSignals(db.rows, capture, payloads, db.nextPk);
    var rest := RunPass(db, capture, payloads).signals[|signals|..];
    hide RunPass, RefreshSignals, Announces, Known, Unmatched;
    PartsAnnounce(signals, rest, db.rows, capture, payloads);
  }

  lemma RestAnnounces(db: Db, capture: nat, payloads: seq<Payload>)
    requires TableOk(db) && PayloadsOk(db, capture, payloads) && DistinctIds(payloads)
    ensures var signals := RefreshSignals(db.rows, capture, payloads, db.nextPk);
      var all := RunPass(db, capture, payloads).signals;
      && |signals| <= |all| && all == signals + all[|signals|..]
      && Announces(all[|signals|..], db.rows, capture, Unmatched(db.rows, capture, payloads))
  {
    hide Announces, TableOk, PayloadsOk;
    UnmatchedNews(db, capture, payloads);
    var unmatched := Unmatched(db.rows, capture, payloads);
    var signals := RefreshSignals(db.rows, capture, payloads, db.nextPk);
    if Binds(db, capture, payloads) {
      BindAnnounces(db, capture, payloads);
      var rest := if unmatched[0].status == Some(Completed) then [unmatched[0].id] else [];
      OneAnnounced(db.rows, capture, unmatched);
      hide RunPass;
      assert (signals + rest)[|signals|..] == rest;
    } else {
      var refreshed := RefreshSynced(db, capture, payloads);
      RefreshHandsOver(db, capture, payloads);
      AdoptAnnounces(refreshed, capture, unmatched);
      SameNews(AdoptSynced(refreshed, capture, unmatched).signals, refreshed.rows, db.rows, capture, unmatched);
      AdoptedSignals(db, capture, payloads);
      var rest := AdoptSynced(refreshed, capture, unmatched).signals;
      hide RunPass;
      assert (signals + rest)[|signals|..] == rest;
    }
  }

  lemma AdoptedSignals(db: Db, capture: nat, payloads: seq<Payload>)
    requires !Binds(db, capture, payloads)
    requires RefreshSynced(db, capture, payloads).rows == RefreshRows(db.rows, capture, payloads)
    ensures RunPass(db, capture, payloads).signals == RefreshSignals(db.rows, capture, payloads, db.nextPk)
      + AdoptSynced(RefreshSynced(db, capture, payloads), capture, Unmatched(db.rows, capture, payloads)).signals
  {
    hide RefreshRows, RefreshSynced, Unmatched, RefreshSignals, SettleRefund, SettleSynced;
    var refreshed := RefreshSynced(db, capture, payloads);
    assert AdoptSynced(refreshed, capture, []).signals == [];
    hide AdoptSynced;
  }

  lemma UnmatchedNews(db: Db, capture: nat, payloads: seq<Payload>)
    requires TableOk(db) && PayloadsOk(db, capture, payloads) && DistinctIds(payloads)
    ensures var refreshed, unmatched := RefreshSynced(db, capture, payloads), Unmatched(db.rows, capture, payloads);
      forall j :: 0 <= j < |unmatched| ==>
        && (NewlyCompleted(db.rows, capture, unmatched[j]) <==> unmatched[j].status == Some(Completed))
        && (NewlyCompleted(refreshed.rows, capture, unmatched[j]) <==> unmatched[j].status == Some(Completed))
  {
    hide RefreshSynced, Unmatched, TableOk;
    RefreshHandsOver(db, capture, payloads);
    UnmatchedMembers(db.rows, capture, payloads);
    var unmatched := Unmatched(db.rows, capture, payloads);
    forall j | 0 <= j < |unmatched|
      ensures NewlyCompleted(db.rows, capture, unmatched[j]) <==> unmatched[j].status == Some(Completed)
    {
      assert unmatched[j] in unmatched;
    }
  }

  lemma SameNews(ids: seq<Option<string>>, rows: map<nat, Refund>, other: map<nat, Refund>, capture: nat,
                 payloads: seq<Payload>)
    requires forall j :: 0 <= j < |payloads| ==>
      (NewlyCompleted(rows, capture, payloads[j]) <==> NewlyCompleted(other, capture, payloads[j]))
    requires Announces(ids, rows, capture, payloads)
    ensures Announces(ids, other, capture, payloads)
  {
    hide NewlyCompleted;
    forall id | id in ids
      ensures exists i :: 0 <= i < |payloads| && payloads[i].id == id && NewlyCompleted(other, capture, payloads[i])
    {
      var i :| 0 <= i < |payloads| && payloads[i].id == id && NewlyCompleted(rows, capture, payloads[i]);
    }
  }

  lemma OneAnnounced(rows: map<nat, Refund>, capture: nat, payloads: seq<Payload>)
    requires |payloads| == 1 && (NewlyCompleted(rows, capture, payloads[0]) <==> payloads[0].status == Some(Completed))
    ensures Announces(if payloads[0].status == Some(Completed) then [payloads[0].id] else [], rows, capture, payloads)
  {
    hide NewlyCompleted;
  }

  /** The ids of the payloads, in order. */
  function Ids(payloads: seq<Payload>): seq<Option<string>> {
    seq(|payloads|, i requires 0 <= i < |payloads| => payloads[i].id)
  }

  lemma {:induction false} AdoptReports(db: Db, capture: nat, unmatched: seq<Payload>)
    ensures AdoptSynced(db, capture, unmatched).adopted == Ids(unmatched)
  {
    hide AdoptRemoteRefund, AdoptSignal, SyncStatus;
    if unmatched != [] {
      AdoptReports(db, capture, unmatched[..|unmatched| - 1]);
    }
  }

  /** And reports as adopted exactly the listed refunds that the capture has no row for, in PayPal's order. */
  lemma PassReports(db: Db, capture: nat, payloads: seq<Payload>)
    ensures RunPass(db, capture, payloads).adopted == Ids(Unmatched(db.rows, capture, payloads))
  {
    var unmatched := Unmatched(db.rows, capture, payloads);
    AdoptReports(RefreshSynced(db, capture, payloads), capture, unmatched);
    hide Unmatched, RefreshSynced, AdoptSynced, RefreshSignals, SettleRefund, SettleSynced;
    assert |unmatched| == 1 ==> Ids(unmatched) == [unmatched[0].id];
  }

  // ---------- the whole listing ----------

  /** Some capture's group has this refund, newly completed. */
  ghost predicate NewlyCompletedIn(rows: map<nat, Refund>, groups: seq<Group>, id: Option<string>) {
    exists k, i :: 0 <= k < |groups| && 0 <= i < |groups[k].payloads|
      && groups[k].payloads[i].id == id && NewlyCompleted(rows, groups[k].capture, groups[k].payloads[i])
  }

  lemma NewsLocal(rows: map<nat, Refund>, other: map<nat, Refund>, capture: nat, p: Payload)
    requires Under(rows, capture) == Under(other, capture)
    ensures NewlyCompleted(rows, capture, p) <==> NewlyCompleted(other, capture, p)
  {
    forall pk ensures pk in Under(rows, capture) <==> pk in Under(other, capture) {}
    forall pk | pk in Under(rows, capture) ensures other[pk] == rows[pk] {
      assert Under(other, capture)[pk] == rows[pk];
    }
    assert forall pk :: pk in rows && rows[pk].capture == capture ==> pk in Under(rows, capture);
    assert forall pk :: pk in other && other[pk].capture == capture ==> pk in Under(other, capture);
  }

  lemma InOneMore(rows: map<nat, Refund>, groups: seq<Group>, id: Option<string>)
    requires groups != []
    ensures var n := |groups| - 1;
      NewlyCompletedIn(rows, groups, id) <==>
        || NewlyCompletedIn(rows, groups[..n], id)
        || exists i :: 0 <= i < |groups[n].payloads|
             && groups[n].payloads[i].id == id && NewlyCompleted(rows, groups[n].capture, groups[n].payloads[i])
  {
    hide NewlyCompleted;
    var n := |groups| - 1;
    if k, i :| 0 <= k < n && 0 <= i < |groups[..n][k].payloads|
               && groups[..n][k].payloads[i].id == id
               && NewlyCompleted(rows, groups[..n][k].capture, groups[..n][k].payloads[i]) {
      assert groups[k] == groups[..n][k];
    }
    if k, i :| 0 <= k < |groups| && 0 <= i < |groups[k].payloads|
               && groups[k].payloads[i].id == id && NewlyCompleted(rows, groups[k].capture, groups[k].payloads[i]) {
      if k < n {
        assert groups[..n][k] == groups[k];
      }
    }
  }

  lemma AnnouncedOwner(db: Db, owner: string -> nat, groups: seq<Group>, id: Option<string>)
    requires GroupsOk(db, owner, groups) && NewlyCompletedIn(db.rows, groups, id)
    ensures id.Some? && exists k :: 0 <= k < |groups| && owner(id.value) == groups[k].capture
  {
    var k, i :| 0 <= k < |groups| && 0 <= i < |groups[k].payloads|
      && groups[k].payloads[i].id == id && NewlyCompleted(db.rows, groups[k].capture, groups[k].payloads[i]);
    assert GroupOk(db, owner, groups[k]);
  }

  /** Reconciling an order announces exactly the refunds that PayPal newly reports completed, each once. */
  lemma {:induction false} PassesAnnounce(db: Db, owner: string -> nat, groups: seq<Group>)
    requires TableOk(db) && Owned(db, owner) && GroupsOk(db, owner, groups)
    requires forall k :: 0 <= k < |groups| ==> DistinctIds(groups[k].payloads)
    ensures Distinct(RunPasses(db, groups).signals)
    ensures forall id :: id in RunPasses(db, groups).signals <==> NewlyCompletedIn(db.rows, groups, id)
    decreases |groups|
  {
    if groups == [] {
      return;
    }
    var n := |groups| - 1;
    var before, last := groups[..n], groups[n];
    assert GroupsOk(db, owner, before) && GroupOk(db, owner, last);
    assert forall k :: 0 <= k < n ==> groups[k].capture != last.capture;
    hide TableOk, Owned, RunPass, PayloadsOk, NewlyCompleted, NewlyCompletedIn, Announces, Distinct, Under, GroupOk,
      GroupsOk;
    PassesAnnounce(db, owner, before);
    LastGroupOk(db, owner, groups);
    var mid := RunPasses(db, before).db;
    PassAnnounces(mid, last.capture, last.payloads);
    PassesFrame(db, owner, before, last.capture);
    forall i | 0 <= i < |last.payloads|
      ensures NewlyCompleted(mid.rows, last.capture, last.payloads[i])
         <==> NewlyCompleted(db.rows, last.capture, last.payloads[i])
    {
      NewsLocal(mid.rows, db.rows, last.capture, last.payloads[i]);
    }
    SameNews(RunPass(mid, last.capture, last.payloads).signals, mid.rows, db.rows, last.capture, last.payloads);
    LastAnnounced(db, owner, groups, RunPasses(db, before).signals, RunPass(mid, last.capture, last.payloads).signals);
  }

  lemma LastAnnounced(db: Db, owner: string -> nat, groups: seq<Group>, a: seq<Option<string>>, b: seq<Option<string>>)
    requires groups != [] && GroupsOk(db, owner, groups)
    requires Distinct(a) && forall id :: id in a <==> NewlyCompletedIn(db.rows, groups[..|groups| - 1], id)
    requires Announces(b, db.rows, groups[|groups| - 1].capture, groups[|groups| - 1].payloads)
    ensures Distinct(a + b) && forall id :: id in a + b <==> NewlyCompletedIn(db.rows, groups, id)
  {
    var n := |groups| - 1;
    var before, last := groups[..n], groups[n];
    assert GroupsOk(db, owner, before) && GroupOk(db, owner, last);
    hide NewlyCompleted;
    forall id ensures id in a + b <==> NewlyCompletedIn(db.rows, groups, id) {
      InOneMore(db.rows, groups, id);
      hide NewlyCompletedIn;
    }
    forall i | 0 <= i < |a| ensures a[i].Some? && owner(a[i].value) != last.capture {
      assert a[i] in a;
      AnnouncedOwner(db, owner, before, a[i]);
    }
    forall j | 0 <= j < |b| ensures b[j].Some? && owner(b[j].value) == last.capture {
      assert b[j] in b;
      var x :| 0 <= x < |last.payloads| && last.payloads[x].id == b[j];
    }
    hide GroupsOk, Announces;
  }
}
