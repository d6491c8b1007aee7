/**
 _reconcile_refunds as the code runs it: loops that group PayPal's refunds by capture, update known
 rows one by one, and bind or adopt what is left, all on the mutable refund table.
 */
module Reconciler {
  import opened Options
  import opened RefundRows
  import opened RefundReconcile
  import opened RefundListing
  import opened RefundPasses
  import opened RefundStore

  // ---------- one capture ----------

  /** The dictionary of refunds the capture already has rows for. */
  ghost predicate KnownBy(rows: map<nat, Refund>, capture: nat, payloads: seq<Payload>, known: map<string, nat>) {
    && (forall id :: id in known ==>
          known[id] in rows && rows[known[id]].capture == capture && rows[known[id]].paypalId == Some(id))
    && (forall i :: 0 <= i < |payloads| && payloads[i].id.Some? && Knows(rows, capture, payloads[i]) ==>
          payloads[i].id.value in known)
  }

  function Find(known: map<string, nat>, id: string): Option<nat> {
    if id in known then Some(known[id]) else None
  }

  lemma FindKnown(rows: map<nat, Refund>, capture: nat, payloads: seq<Payload>, known: map<string, nat>, i: nat)
    requires KnownBy(rows, capture, payloads, known) && i < |payloads| && payloads[i].id.Some?
    ensures var pk := Find(known, payloads[i].id.value);
            && (pk.None? <==> !Knows(rows, capture, payloads[i]))
            && (pk.Some? ==>
              pk.value in rows && rows[pk.value].capture == capture && rows[pk.value].paypalId == payloads[i].id)
  {}

  lemma KnownByStep(rows: map<nat, Refund>, capture: nat, payloads: seq<Payload>, known: map<string, nat>, i: nat,
                    pk: Option<nat>)
    requires i < |payloads| && payloads[i].id.Some? && KnownBy(rows, capture, payloads[..i], known)
    requires pk.Some? ==> pk.value in rows && rows[pk.value].paypalId == payloads[i].id
    requires Knows(rows, capture, payloads[i]) <==> pk.Some? && rows[pk.value].capture == capture
    ensures KnownBy(rows, capture, payloads[..i + 1],
      if pk.Some? && rows[pk.value].capture == capture then known[payloads[i].id.value := pk.value] else known)
  {
    hide Knows;
    assert forall j :: 0 <= j < i ==> payloads[..i + 1][j] == payloads[..i][j];
  }

  method FindRefunds(store: Store, capture: nat, payloads: seq<Payload>) returns (known: map<string, nat>)
    requires TableOk(store.State()) && forall i :: 0 <= i < |payloads| ==> payloads[i].id.Some?
    ensures KnownBy(store.rows, capture, payloads, known)
  {
    known := map[];
    for i := 0 to |payloads|
      invariant KnownBy(store.rows, capture, payloads[..i], known)
    {
      var id := payloads[i].id.value;
      var pk := First(store.rows, WithPaypalId(id), store.nextPk);
      FirstKnows(store.State(), capture, payloads[i]);
      KnownByStep(store.rows, capture, payloads, known, i, pk);
      if pk.Some? && store.rows[pk.value].capture == capture {
        known := known[id := pk.value];
      }
    }
    assert payloads[..|payloads|] == payloads;
  }

  /** Applies each payload to the row that already carries its refund; the capture's status follows
      completed refunds. */
  method Refresh(store: Store, capture: nat, payloads: seq<Payload>, known: map<string, nat>)
    returns (signals: seq<Option<string>>)
    requires TableOk(store.State()) && forall i :: 0 <= i < |payloads| ==> payloads[i].id.Some?
    requires KnownBy(store.rows, capture, payloads, known)
    modifies store
    ensures store.State() == RefreshSynced(old(store.State()), capture, payloads)
    ensures signals == RefreshSignals(old(store.rows), capture, payloads, old(store.nextPk))
  {
    ghost var db := store.State();
    signals := [];
    for i := 0 to |payloads|
      invariant store.State() == RefreshSynced(db, capture, payloads[..i])
      invariant signals == RefreshSignals(db.rows, capture, payloads[..i], db.nextPk)
    {
      var p := payloads[i];
      FindKnown(db.rows, capture, payloads, known, i);
      SignalStep(db, capture, payloads, i, Find(known, p.id.value));
      RefreshedState(db, capture, payloads, i, Find(known, p.id.value));
      if p.id.value in known {
        var pk := known[p.id.value];
        var before := store.rows[pk];
        var row := UpdateFromPayload(before, p);
        var saved := store.Save(pk, row);
        if row.status.Completed? {
          store.SyncRefundStatus(capture);
          if !before.status.Completed? {
            signals := signals + [p.id];
          }
        }
      }
    }
    assert payloads[..|payloads|] == payloads;
  }

  /** The state of the refresh loop before its i-th payload, and what that payload does. */
  lemma RefreshedState(db: Db, capture: nat, payloads: seq<Payload>, i: nat, pk: Option<nat>)
    requires TableOk(db) && i < |payloads| && forall j :: 0 <= j < |payloads| ==> payloads[j].id.Some?
    requires pk.Some? ==>
      pk.value in db.rows && db.rows[pk.value].capture == capture && db.rows[pk.value].paypalId == payloads[i].id
    requires pk.None? ==> !Knows(db.rows, capture, payloads[i])
    ensures var before, p := RefreshSynced(db, capture, payloads[..i]), payloads[i];
      && RefreshSynced(db, capture, payloads[..i + 1]) == RefreshOne(before, capture, p)
      && before.rows == RefreshRows(db.rows, capture, payloads[..i])
      && (pk.None? ==> RefreshOne(before, capture, p) == before)
      && (pk.Some? ==>
            && pk.value in before.rows && before.rows[pk.value].capture == capture
            && First(before.rows, WithPaypalId(p.id.value), before.nextPk) == pk
            && Accepts(before.rows, pk.value, UpdateFromPayload(before.rows[pk.value], p)))
  {
    PrefixStep(payloads, i);
    RefreshStrips(db, capture, payloads[..i]);
    RefreshKeeps(db, capture, payloads[..i]);
    var before, p := RefreshSynced(db, capture, payloads[..i]), payloads[i];
    assert Strip(before).rows == RefreshRows(db.rows, capture, payloads[..i]);
    var kept := db.(rows := before.rows);
    assert kept == AfterRefresh(db, capture, payloads[..i]) && before.nextPk == db.nextPk;
    hide RefreshRows, Strip, RefreshSynced;
    FirstKnows(kept, capture, p);
    if pk.Some? {
      KnownRow(kept, capture, p, pk.value);
    } else {
      assert !Knows(before.rows, capture, p);
    }
  }

  method WithoutRow(payloads: seq<Payload>, known: map<string, nat>, ghost rows: map<nat, Refund>, ghost capture: nat)
    returns (unmatched: seq<Payload>)
    requires KnownBy(rows, capture, payloads, known) && forall i :: 0 <= i < |payloads| ==> payloads[i].id.Some?
    ensures unmatched == Unmatched(rows, capture, payloads)
  {
    unmatched := [];
    for i := 0 to |payloads|
      invariant unmatched == Unmatched(rows, capture, payloads[..i])
    {
      FindKnown(rows, capture, payloads, known, i);
      UnmatchedStep(rows, capture, payloads, i);
      if payloads[i].id.value !in known {
        unmatched := unmatched + [payloads[i]];
      }
    }
    assert payloads[..|payloads|] == payloads;
  }

  /** Records every refund that no attempt could be matched to. */
  method AdoptEach(store: Store, capture: nat, unmatched: seq<Payload>)
    returns (adopted: seq<Option<string>>, signals: seq<Option<string>>)
    requires TableOk(store.State()) && capture in store.captures
    requires forall i :: 0 <= i < |unmatched| ==> unmatched[i].id.Some?
    modifies store
    ensures TableOk(store.State()) && store.captures.Keys == old(store.captures.Keys)
    ensures Pass(store.State(), adopted, signals) == AdoptSynced(old(store.State()), capture, unmatched)
  {
    ghost var db := store.State();
    adopted, signals := [], [];
    for i := 0 to |unmatched|
      invariant TableOk(store.State()) && store.captures.Keys == db.captures.Keys
      invariant Pass(store.State(), adopted, signals) == AdoptSynced(db, capture, unmatched[..i])
    {
      AdoptSucceeds(store.State(), capture, unmatched[i]);
      PrefixStep(unmatched, i);
      var refund := store.Adopt(capture, unmatched[i]);
      SyncStrips(store.State(), capture);
      adopted := adopted + [unmatched[i].id];
      if AdoptSignal(store.State(), unmatched[i]) != [] {
        signals := signals + [unmatched[i].id];
        store.SyncRefundStatus(capture);
      }
    }
    assert unmatched[..|unmatched|] == unmatched;
  }

  /** settle_reconciled_refund: settle, then let the settled row's capture follow. */
  method SettleReconciled(store: Store, pk: nat, p: Payload) returns (notify: bool)
    requires TableOk(store.State()) && pk in store.rows
    modifies store
    ensures store.State() == SettleSynced(old(store.State()), pk, p)
    ensures TableOk(store.State()) && store.captures.Keys == old(store.captures.Keys)
    ensures var settled := SettleRefund(old(store.State()), HandleOf(pk, old(store.rows)[pk]), p);
      notify == (settled.Done? && settled.value.1)
  {
    SettleSucceeds(store.State(), pk, p);
    var settled := store.Settle(HandleOf(pk, store.rows[pk]), p);
    notify := settled.Ok? && settled.value.1;
    if settled.Ok? && settled.value.0 in store.rows && store.rows[settled.value.0].status.Completed? {
      SyncStrips(store.State(), store.rows[settled.value.0].capture);
      store.SyncRefundStatus(store.rows[settled.value.0].capture);
    }
  }

  /** The body of the loop over by_capture. */
  method ReconcileCapture(store: Store, capture: nat, payloads: seq<Payload>)
    returns (adopted: seq<Option<string>>, signals: seq<Option<string>>)
    requires TableOk(store.State()) && capture in store.captures
    requires forall i :: 0 <= i < |payloads| ==> payloads[i].id.Some?
    modifies store
    ensures TableOk(store.State()) && store.captures.Keys == old(store.captures.Keys)
    ensures Pass(store.State(), adopted, signals) == RunPass(old(store.State()), capture, payloads)
  {
    ghost var db := store.State();
    var known := FindRefunds(store, capture, payloads);
    var unmatched := WithoutRow(payloads, known, store.rows, capture);
    signals := Refresh(store, capture, payloads, known);
    RefreshedTable(db, capture, payloads);
    UnmatchedNamed(db.rows, capture, payloads);
    adopted := [];
    if unmatched == [] {
      return;
    }
    var local := Locals(store.rows, capture);
    if |local| == 1 && |unmatched| == 1 {
      OnlyLocal(store.State(), capture);
      var pk := First(store.rows, InitiatedIn(capture), store.nextPk).value;
      var notify := SettleReconciled(store, pk, unmatched[0]);
      adopted := [unmatched[0].id];
      if notify {
        signals := signals + [unmatched[0].id];
      }
    } else {
      var more;
      adopted, more := AdoptEach(store, capture, unmatched);
      signals := signals + more;
    }
  }

  lemma UnmatchedNamed(rows: map<nat, Refund>, capture: nat, payloads: seq<Payload>)
    requires forall i :: 0 <= i < |payloads| ==> payloads[i].id.Some?
    ensures forall i :: 0 <= i < |Unmatched(rows, capture, payloads)| ==> Unmatched(rows, capture, payloads)[i].id.Some?
  {
    UnmatchedMembers(rows, capture, payloads);
    forall i | 0 <= i < |Unmatched(rows, capture, payloads)| ensures Unmatched(rows, capture, payloads)[i].id.Some? {
      assert Unmatched(rows, capture, payloads)[i] in payloads;
    }
  }

  // ---------- the whole listing ----------

  method GroupByCapture(remote: seq<Listing>) returns (groups: seq<Parented>)
    ensures groups == ByCapture(remote) && GroupedBy(remote, groups)
  {
    groups := [];
    for i := 0 to |remote|
      invariant groups == ByCapture(remote[..i])
    {
      var item := remote[i];
      assert remote[..i + 1][..i] == remote[..i];
      if item.parent.Some? {
        ghost var before := groups;
        var k := IndexOf(groups, item.parent.value);
        if k == |groups| {
          groups := groups + [Parented(item.parent.value, [])];
        }
        groups := groups[k := Parented(item.parent.value, groups[k].payloads + [item.payload])];
        assert [] + [item.payload] == [item.payload];
        assert groups == Insert(before, item.parent.value, item.payload);
      }
    }
    assert remote[..|remote|] == remote;
    ByCaptureGroups(remote);
  }

  lemma ResolvedStep(captures: map<nat, Capture>, own: seq<nat>, groups: seq<Parented>, i: nat, db: Db)
    requires i < |groups|
    ensures var before, capture := Resolved(captures, own, groups[..i]), CaptureNamed(captures, own, groups[i].parent);
      if capture.Some? then
        var mid := RunPasses(db, before);
        var pass := RunPass(mid.db, capture.value, groups[i].payloads);
        RunPasses(db, Resolved(captures, own, groups[..i + 1]))
          == Pass(pass.db, mid.adopted + pass.adopted, mid.signals + pass.signals)
      else Resolved(captures, own, groups[..i + 1]) == before
  {
    assert groups[..i + 1][..i] == groups[..i];
    var before, all := Resolved(captures, own, groups[..i]), Resolved(captures, own, groups[..i + 1]);
    if CaptureNamed(captures, own, groups[i].parent).Some? {
      assert all[..|all| - 1] == before;
    }
  }

  /** _reconcile_refunds: one pass for each of the order's captures that PayPal lists refunds
      under, in the listing's order. */
  method ReconcileRefunds(store: Store, own: seq<nat>, remote: seq<Listing>)
    returns (adopted: seq<Option<string>>, signals: seq<Option<string>>)
    requires TableOk(store.State()) && forall i :: 0 <= i < |remote| ==> remote[i].payload.id.Some?
    modifies store
    ensures TableOk(store.State())
    ensures Pass(store.State(), adopted, signals) == RefundPass(old(store.State()), own, remote)
  {
    ghost var db := store.State();
    var byCapture := GroupByCapture(remote);
    var captures := store.captures;
    adopted, signals := [], [];
    for k := 0 to |byCapture|
      invariant TableOk(store.State()) && store.captures.Keys == db.captures.Keys
      invariant Pass(store.State(), adopted, signals) == RunPasses(db, Resolved(db.captures, own, byCapture[..k]))
    {
      ResolvedStep(db.captures, own, byCapture, k, db);
      var capture := CaptureNamed(captures, own, byCapture[k].parent);
      if capture.Some? {
        ListedNamed(remote, byCapture[k].parent);
        var more, sent := ReconcileCapture(store, capture.value, byCapture[k].payloads);
        adopted, signals := adopted + more, signals + sent;
      }
    }
    assert byCapture[..|byCapture|] == byCapture;
  }

  lemma {:induction false} ListedNamed(remote: seq<Listing>, parent: string)
    requires forall i :: 0 <= i < |remote| ==> remote[i].payload.id.Some?
    ensures forall j :: 0 <= j < |Listed(remote, parent)| ==> Listed(remote, parent)[j].id.Some?
  {
    if remote != [] {
      ListedNamed(remote[..|remote| - 1], parent);
    }
  }
}
