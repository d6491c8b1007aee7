/**
 The refund passes with the captures' own statuses (_reconcile_refunds and sync_refund_status in
 paypal_checkout/orders.py and paypal_checkout/models.py): whenever a refund is found completed, its
 capture's status follows.  Statuses never steer a pass, so on everything else the passes do what
 PassCapture and PassAll do.
 */
module RefundPasses {
  import opened Options
  import opened RefundRows
  import opened RefundReconcile
  import opened OrderReconcile

  // ---------- the passes ----------

  /** One payload of the refresh loop: the capture's row of that refund, if any, then the capture's status. */
  function RefreshOne(db: Db, capture: nat, p: Payload): Db {
    var pk := if p.id.Some? then First(db.rows, WithPaypalId(p.id.value), db.nextPk) else None;
    if pk.None? || db.rows[pk.value].capture != capture then db
    else
      var row := UpdateFromPayload(db.rows[pk.value], p);
      var after := db.(rows := db.rows[pk.value := row]);
      if row.status.Completed? then SyncStatus(after, capture) else after
  }

  function RefreshSynced(db: Db, capture: nat, payloads: seq<Payload>): Db {
    if payloads == [] then db
    else RefreshOne(RefreshSynced(db, capture, payloads[..|payloads| - 1]), capture, payloads[|payloads| - 1])
  }

  function AdoptSynced(db: Db, capture: nat, payloads: seq<Payload>): Pass {
    if payloads == [] then Pass(db, [], [])
    else
      var before, last := AdoptSynced(db, capture, payloads[..|payloads| - 1]), payloads[|payloads| - 1];
      var after := TableAfter(before.db, AdoptRemoteRefund(before.db, capture, last));
      var signals := AdoptSignal(after, last);
      Pass(
        if signals != [] then SyncStatus(after, capture) else after,
        before.adopted + [last.id], before.signals + signals)
  }

  /** settle_reconciled_refund: the settled row's capture follows if the row is completed. */
  function SettleSynced(db: Db, pk: nat, p: Payload): Db
    requires pk in db.rows
  {
    match SettleRefund(db, HandleOf(pk, db.rows[pk]), p)
    case Raised(_) => db
    case Done(after, value) =>
      if value.0 in after.rows && after.rows[value.0].status.Completed?
      then SyncStatus(after, after.rows[value.0].capture) else after
  }

  function RunPass(db: Db, capture: nat, payloads: seq<Payload>): Pass {
    var refreshed := RefreshSynced(db, capture, payloads);
    var signals := RefreshSignals(db.rows, capture, payloads, db.nextPk);
    var unmatched := Unmatched(db.rows, capture, payloads);
    var local := FirstLocal(refreshed, capture);
    if unmatched == [] then Pass(refreshed, [], signals)
    else if |Locals(refreshed.rows, capture)| == 1 && |unmatched| == 1 && local.Some? then
      var settled := SettleRefund(refreshed, HandleOf(local.value, refreshed.rows[local.value]), unmatched[0]);
      var notify := settled.Done? && settled.value.1;
      Pass(SettleSynced(refreshed, local.value, unmatched[0]), [unmatched[0].id],
           signals + if notify then [unmatched[0].id] else [])
    else
      var adopted := AdoptSynced(refreshed, capture, unmatched);
      Pass(adopted.db, adopted.adopted, signals + adopted.signals)
  }

  function RunPasses(db: Db, groups: seq<Group>): Pass {
    if groups == [] then Pass(db, [], [])
    else
      var last := groups[|groups| - 1];
      var before := RunPasses(db, groups[..|groups| - 1]);
      var pass := RunPass(before.db, last.capture, last.payloads);
      Pass(pass.db, before.adopted + pass.adopted, before.signals + pass.signals)
  }

  // ---------- the constraints hold after every statement, so no save is refused ----------

  lemma KnownRow(db: Db, capture: nat, p: Payload, pk: nat)
    requires TableOk(db) && p.id.Some? && pk in db.rows && db.rows[pk].capture == capture
    requires db.rows[pk].paypalId == p.id
    ensures First(db.rows, WithPaypalId(p.id.value), db.nextPk) == Some(pk)
    ensures Accepts(db.rows, pk, UpdateFromPayload(db.rows[pk], p))
  {}

  lemma FirstKnows(db: Db, capture: nat, p: Payload)
    requires TableOk(db) && p.id.Some?
    ensures var pk := First(db.rows, WithPaypalId(p.id.value), db.nextPk);
            Knows(db.rows, capture, p) <==> pk.Some? && db.rows[pk.value].capture == capture
  {}

  lemma PrefixStep(payloads: seq<Payload>, i: nat)
    requires i < |payloads|
    ensures payloads[..i + 1][..|payloads[..i + 1]| - 1] == payloads[..i]
    ensures payloads[..i + 1][|payloads[..i + 1]| - 1] == payloads[i]
  {}

  /** Refreshing by one more payload updates the one row that carries its refund, if the capture has one. */
  lemma RefreshStep(db: Db, capture: nat, payloads: seq<Payload>, i: nat, pk: Option<nat>)
    requires TableOk(db) && i < |payloads| && payloads[i].id.Some?
    requires pk.Some? ==>
      pk.value in db.rows && db.rows[pk.value].capture == capture && db.rows[pk.value].paypalId == payloads[i].id
    requires pk.None? ==> !Knows(db.rows, capture, payloads[i])
    ensures var before, after := RefreshRows(db.rows, capture, payloads[..i]),
      RefreshRows(db.rows, capture, payloads[..i + 1]);
            after == if pk.Some? then before[pk.value := UpdateFromPayload(before[pk.value], payloads[i])] else before
  {
    PrefixStep(payloads, i);
    hide UpdateFromPayload;
    forall q | q in db.rows && db.rows[q].capture == capture && db.rows[q].paypalId == payloads[i].id
      ensures Some(q) == pk {
      assert Knows(db.rows, capture, payloads[i]);
    }
  }

  lemma SignalStep(db: Db, capture: nat, payloads: seq<Payload>, i: nat, pk: Option<nat>)
    requires TableOk(db) && i < |payloads| && payloads[i].id.Some?
    requires pk.Some? ==>
      pk.value in db.rows && db.rows[pk.value].capture == capture && db.rows[pk.value].paypalId == payloads[i].id
    requires pk.None? ==> !Knows(db.rows, capture, payloads[i])
    ensures RefreshSignals(db.rows, capture, payloads[..i + 1], db.nextPk)
         == RefreshSignals(db.rows, capture, payloads[..i], db.nextPk)
            + var before := RefreshRows(db.rows, capture, payloads[..i]);
              if pk.Some? && !before[pk.value].status.Completed?
                 && UpdateFromPayload(before[pk.value], payloads[i]).status.Completed?
              then [payloads[i].id] else []
  {
    PrefixStep(payloads, i);
    RefreshKeeps(db, capture, payloads[..i]);
    var before := db.(rows := RefreshRows(db.rows, capture, payloads[..i]));
    if pk.Some? {
      KnownRow(before, capture, payloads[i], pk.value);
    } else {
      var found := First(before.rows, WithPaypalId(payloads[i].id.value), db.nextPk);
      if found.Some? && before.rows[found.value].capture == capture {
        assert false;
      }
    }
  }

  lemma UnmatchedStep(rows: map<nat, Refund>, capture: nat, payloads: seq<Payload>, i: nat)
    requires i < |payloads|
    ensures Unmatched(rows, capture, payloads[..i + 1])
         == Unmatched(rows, capture, payloads[..i]) + if Knows(rows, capture, payloads[i]) then [] else [payloads[i]]
  {
    PrefixStep(payloads, i);
  }

  /** Adopting never trips a constraint. */
  lemma AdoptSucceeds(db: Db, capture: nat, p: Payload)
    requires TableOk(db) && capture in db.captures && p.id.Some?
    ensures AdoptRemoteRefund(db, capture, p).Done?
    ensures TableOk(AdoptRemoteRefund(db, capture, p).db)
    ensures AdoptRemoteRefund(db, capture, p).db.captures == db.captures
  {
    var known := First(db.rows, WithPaypalId(p.id.value), db.nextPk);
    if known.Some? {
      var row := UpdateFromPayload(db.rows[known.value], p);
      assert Accepts(db.rows, known.value, row);
      SavedTableOk(db, known.value, row);
    } else {
      AdoptUnheard(db, capture, p);
      var pk, row := db.nextPk, AdoptedRow(db, capture, p);
      assert Accepts(db.rows, pk, row);
      hide TableOk;
      InsertedTableOk(db, row);
      FlaggedTableOk(db.(rows := db.rows[pk := row], nextPk := pk + 1), capture, pk);
    }
  }

  /** Settling an existing attempt never trips a constraint, merging included. */
  lemma SettleSucceeds(db: Db, pk: nat, p: Payload)
    requires TableOk(db) && pk in db.rows
    ensures SettleRefund(db, HandleOf(pk, db.rows[pk]), p).Done?
    ensures TableOk(SettleRefund(db, HandleOf(pk, db.rows[pk]), p).db)
    ensures SettleRefund(db, HandleOf(pk, db.rows[pk]), p).db.captures == db.captures
  {
    var adopted := if p.id.Some? then First(db.rows, OtherWithPaypalId(p.id.value, pk), db.nextPk) else None;
    if adopted.Some? {
      MergeSucceeds(db, pk, adopted.value);
    } else {
      assert Accepts(db.rows, pk, UpdateFromPayload(db.rows[pk], p));
      SavedTableOk(db, pk, UpdateFromPayload(db.rows[pk], p));
    }
  }

  lemma MergeSucceeds(db: Db, attempt: nat, survivor: nat)
    requires TableOk(db) && attempt in db.rows && survivor in db.rows && attempt != survivor
    ensures MergeRows(db.rows, attempt, survivor).Some?
    ensures TableOk(db.(rows := MergeRows(db.rows, attempt, survivor).value))
  {
    var cleared := db.rows[attempt].(key := None);
    assert Accepts(db.rows, attempt, cleared);
    var taken := Absorb(db.rows[survivor], attempt, db.rows[attempt]);
    assert Accepts(db.rows[attempt := cleared], survivor, taken);
  }

  // ---------- statuses never steer ----------

  /** The table without the captures' statuses. */
  function Strip(db: Db): Db {
    db.(captures := map c | c in db.captures :: db.captures[c].(status := ""))
  }

  lemma StripFacts(db: Db)
    ensures Strip(db).rows == db.rows && Strip(db).nextPk == db.nextPk && Strip(db).captures.Keys == db.captures.Keys
    ensures forall c :: c in db.captures ==> Strip(db).captures[c].paypalId == db.captures[c].paypalId
  {}

  lemma SyncStrips(db: Db, capture: nat)
    ensures Strip(SyncStatus(db, capture)) == Strip(db)
    ensures TableOk(db) ==> TableOk(SyncStatus(db, capture))
  {}

  lemma StripTable(db: Db)
    ensures TableOk(Strip(db)) <==> TableOk(db)
  {}

  lemma AdoptStrips(db: Db, capture: nat, p: Payload)
    ensures TableAfter(Strip(db), AdoptRemoteRefund(Strip(db), capture, p))
         == Strip(TableAfter(db, AdoptRemoteRefund(db, capture, p)))
  {}

  lemma SettleStrips(db: Db, h: Handle, p: Payload)
    ensures SettleRefund(Strip(db), h, p).Done? == SettleRefund(db, h, p).Done?
    ensures SettleRefund(db, h, p).Done? ==>
      && SettleRefund(Strip(db), h, p).value == SettleRefund(db, h, p).value
      && SettleRefund(Strip(db), h, p).db == Strip(SettleRefund(db, h, p).db)
  {}

  lemma SettleSyncedStrips(db: Db, pk: nat, p: Payload)
    requires pk in db.rows
    ensures Strip(SettleSynced(db, pk, p))
         == TableAfter(Strip(db), SettleRefund(Strip(db), HandleOf(pk, db.rows[pk]), p))
  {
    var h := HandleOf(pk, db.rows[pk]);
    SettleStrips(db, h, p);
    hide SettleRefund, Strip;
    if SettleRefund(db, h, p).Done? {
      var after, value := SettleRefund(db, h, p).db, SettleRefund(db, h, p).value;
      if value.0 in after.rows {
        SyncStrips(after, after.rows[value.0].capture);
      }
    }
  }

  lemma RefreshOneStrips(db: Db, capture: nat, p: Payload)
    ensures RefreshOne(db, capture, p).nextPk == db.nextPk
    ensures var pk := if p.id.Some? then First(db.rows, WithPaypalId(p.id.value), db.nextPk) else None;
            Strip(RefreshOne(db, capture, p))
              == if pk.Some? && db.rows[pk.value].capture == capture
                 then Strip(db).(rows := db.rows[pk.value := UpdateFromPayload(db.rows[pk.value], p)]) else Strip(db)
  {
    var pk := if p.id.Some? then First(db.rows, WithPaypalId(p.id.value), db.nextPk) else None;
    if pk.Some? && db.rows[pk.value].capture == capture {
      SyncStrips(db.(rows := db.rows[pk.value := UpdateFromPayload(db.rows[pk.value], p)]), capture);
    }
  }

  /** The refresh loop leaves the refreshed rows, and only statuses differ otherwise. */
  lemma {:induction false} RefreshStrips(db: Db, capture: nat, payloads: seq<Payload>)
    requires TableOk(db) && forall i :: 0 <= i < |payloads| ==> payloads[i].id.Some?
    ensures Strip(RefreshSynced(db, capture, payloads)) == AfterRefresh(Strip(db), capture, payloads)
  {
    if payloads == [] {
      assert RefreshRows(db.rows, capture, payloads) == db.rows;
      return;
    }
    var n := |payloads| - 1;
    var before := RefreshSynced(db, capture, payloads[..n]);
    RefreshStrips(db, capture, payloads[..n]);
    var pk := First(before.rows, WithPaypalId(payloads[n].id.value), before.nextPk);
    RefreshOneStrips(before, capture, payloads[n]);
    RefreshKeeps(db, capture, payloads[..n]);
    FirstKnows(db, capture, payloads[n]);
    var here := if pk.Some? && before.rows[pk.value].capture == capture then pk else None;
    assert before.rows == RefreshRows(db.rows, capture, payloads[..n]);
    hide RefreshRows, RefreshSynced, Strip;
    FirstKept(db, before, payloads[n].id.value);
    RefreshStep(db, capture, payloads, n, here);
    assert payloads[..n + 1] == payloads;
  }

  /** Lookups by refund id see the ids only. */
  lemma FirstKept(db: Db, other: Db, id: string)
    requires db.nextPk == other.nextPk && KeepsIds(db.rows, other.rows) && KeepsIds(other.rows, db.rows)
    ensures First(db.rows, WithPaypalId(id), db.nextPk) == First(other.rows, WithPaypalId(id), other.nextPk)
  {
    var mine, theirs := First(db.rows, WithPaypalId(id), db.nextPk), First(other.rows, WithPaypalId(id), other.nextPk);
    assert mine.Some? ==> Matches(WithPaypalId(id), mine.value, other.rows[mine.value]);
    assert theirs.Some? ==> Matches(WithPaypalId(id), theirs.value, db.rows[theirs.value]);
  }

  lemma {:induction false} AdoptAllStrips(db: Db, capture: nat, payloads: seq<Payload>)
    ensures var synced, plain := AdoptSynced(db, capture, payloads), AdoptAll(Strip(db), capture, payloads);
            Strip(synced.db) == plain.db && synced.adopted == plain.adopted && synced.signals == plain.signals
  {
    if payloads != [] {
      var before, last := AdoptSynced(db, capture, payloads[..|payloads| - 1]).db, payloads[|payloads| - 1];
      AdoptAllStrips(db, capture, payloads[..|payloads| - 1]);
      AdoptStrips(before, capture, last);
      var after := TableAfter(before, AdoptRemoteRefund(before, capture, last));
      SyncStrips(after, capture);
      assert AdoptSignal(after, last) == AdoptSignal(Strip(after), last);
      hide AdoptRemoteRefund, AdoptSignal, SyncStatus;
    }
  }

  /** Apart from the captures' statuses a pass is PassCapture. */
  lemma PassStrips(db: Db, capture: nat, payloads: seq<Payload>)
    requires TableOk(db) && forall i :: 0 <= i < |payloads| ==> payloads[i].id.Some?
    ensures var synced, plain := RunPass(db, capture, payloads), PassCapture(Strip(db), capture, payloads);
            Strip(synced.db) == plain.db && synced.adopted == plain.adopted && synced.signals == plain.signals
  {
    hide RefreshRows, RefreshSynced, RefreshSignals, Unmatched, SettleRefund, SettleSynced, AdoptAll, AdoptSynced,
      TableOk, Strip;
    var refreshed := RefreshSynced(db, capture, payloads);
    RefreshStrips(db, capture, payloads);
    StripFacts(db);
    StripFacts(refreshed);
    var unmatched, local := Unmatched(db.rows, capture, payloads), FirstLocal(refreshed, capture);
    AdoptAllStrips(refreshed, capture, unmatched);
    if local.Some? && unmatched != [] {
      SettleSyncedStrips(refreshed, local.value, unmatched[0]);
      SettleStrips(refreshed, HandleOf(local.value, refreshed.rows[local.value]), unmatched[0]);
    }
  }

  lemma StripGroups(db: Db, owner: string -> nat, groups: seq<Group>)
    ensures Owned(Strip(db), owner) <==> Owned(db, owner)
    ensures GroupsOk(Strip(db), owner, groups) <==> GroupsOk(db, owner, groups)
  {
    assert forall i :: 0 <= i < |groups| ==> (GroupOk(Strip(db), owner, groups[i]) <==> GroupOk(db, owner, groups[i]));
  }

  /** Apart from the captures' statuses the loop over the captures is PassAll. */
  lemma {:induction false} PassesStrip(db: Db, owner: string -> nat, groups: seq<Group>)
    requires TableOk(db) && Owned(db, owner) && GroupsOk(db, owner, groups)
    ensures var synced, plain := RunPasses(db, groups), PassAll(Strip(db), groups);
            Strip(synced.db) == plain.db && synced.adopted == plain.adopted && synced.signals == plain.signals
    ensures TableOk(RunPasses(db, groups).db)
  {
    if groups != [] {
      var before, last := groups[..|groups| - 1], groups[|groups| - 1];
      PassesStrip(db, owner, before);
      assert GroupOk(db, owner, last) && GroupsOk(db, owner, before);
      hide TableOk, RunPass, PassCapture;
      PassStrips(RunPasses(db, before).db, last.capture, last.payloads);
    }
    StripTable(db);
    StripGroups(db, owner, groups);
    PassAllKeeps(Strip(db), owner, groups);
    StripTable(RunPasses(db, groups).db);
  }

  lemma RefreshedTable(db: Db, capture: nat, payloads: seq<Payload>)
    requires TableOk(db) && forall i :: 0 <= i < |payloads| ==> payloads[i].id.Some?
    ensures TableOk(RefreshSynced(db, capture, payloads))
    ensures RefreshSynced(db, capture, payloads).captures.Keys == db.captures.Keys
  {
    var after := RefreshSynced(db, capture, payloads);
    RefreshStrips(db, capture, payloads);
    StripTable(db);
    StripTable(after);
    StripFacts(db);
    StripFacts(after);
    RefreshKeeps(Strip(db), capture, payloads);
  }

  // ---------- statuses only leave INITIATED ----------

  /** The captures keep everything but their status, and none becomes INITIATED. */
  ghost predicate Advances(before: map<nat, Capture>, after: map<nat, Capture>) {
    && after.Keys == before.Keys
    && forall c :: c in before ==>
         && after[c] == before[c].(status := after[c].status)
         && (after[c].status == INITIATED ==> before[c].status == INITIATED)
  }

  lemma SyncAdvances(db: Db, capture: nat)
    ensures Advances(db.captures, SyncStatus(db, capture).captures)
  {
    assert "REFUNDED"[0] == 'R' && "PARTIALLY_REFUNDED"[0] == 'P' && INITIATED[0] == 'I';
  }

  lemma Transitive(a: map<nat, Capture>, b: map<nat, Capture>, c: map<nat, Capture>)
    requires Advances(a, b) && Advances(b, c)
    ensures Advances(a, c)
  {}

  lemma {:induction false} RefreshAdvances(db: Db, capture: nat, payloads: seq<Payload>)
    ensures Advances(db.captures, RefreshSynced(db, capture, payloads).captures)
  {
    if payloads != [] {
      var before, last := RefreshSynced(db, capture, payloads[..|payloads| - 1]), payloads[|payloads| - 1];
      RefreshAdvances(db, capture, payloads[..|payloads| - 1]);
      var pk := if last.id.Some? then First(before.rows, WithPaypalId(last.id.value), before.nextPk) else None;
      if pk.Some? {
        SyncAdvances(before.(rows := before.rows[pk.value := UpdateFromPayload(before.rows[pk.value], last)]), capture);
      }
      Transitive(db.captures, before.captures, RefreshOne(before, capture, last).captures);
    }
  }

  lemma {:induction false} AdoptAdvances(db: Db, capture: nat, payloads: seq<Payload>)
    ensures Advances(db.captures, AdoptSynced(db, capture, payloads).db.captures)
  {
    if payloads != [] {
      var before, last := AdoptSynced(db, capture, payloads[..|payloads| - 1]).db, payloads[|payloads| - 1];
      AdoptAdvances(db, capture, payloads[..|payloads| - 1]);
      var after := TableAfter(before, AdoptRemoteRefund(before, capture, last));
      assert after.captures == before.captures;
      SyncAdvances(after, capture);
      Transitive(db.captures, before.captures, AdoptSynced(db, capture, payloads).db.captures);
    }
  }

  lemma SettleAdvances(db: Db, pk: nat, p: Payload)
    requires pk in db.rows
    ensures Advances(db.captures, SettleSynced(db, pk, p).captures)
  {
    var settled := SettleRefund(db, HandleOf(pk, db.rows[pk]), p);
    if settled.Done? {
      assert settled.db.captures == db.captures;
      if settled.value.0 in settled.db.rows {
        SyncAdvances(settled.db, settled.db.rows[settled.value.0].capture);
      }
    }
  }

  lemma PassAdvances(db: Db, capture: nat, payloads: seq<Payload>)
    ensures Advances(db.captures, RunPass(db, capture, payloads).db.captures)
  {
    var refreshed, unmatched := RefreshSynced(db, capture, payloads), Unmatched(db.rows, capture, payloads);
    var local := FirstLocal(refreshed, capture);
    RefreshAdvances(db, capture, payloads);
    AdoptAdvances(refreshed, capture, unmatched);
    Transitive(db.captures, refreshed.captures, AdoptSynced(refreshed, capture, unmatched).db.captures);
    if local.Some? && unmatched != [] {
      SettleAdvances(refreshed, local.value, unmatched[0]);
      Transitive(db.captures, refreshed.captures, SettleSynced(refreshed, local.value, unmatched[0]).captures);
    }
    hide RefreshSynced, AdoptSynced, SettleSynced, SettleRefund, Advances, Unmatched, RefreshSignals;
  }

  /** Whatever the passes do, a capture never becomes unconfirmed by them. */
  lemma {:induction false} PassesAdvance(db: Db, groups: seq<Group>)
    ensures Advances(db.captures, RunPasses(db, groups).db.captures)
  {
    if groups != [] {
      var before, last := RunPasses(db, groups[..|groups| - 1]).db, groups[|groups| - 1];
      PassesAdvance(db, groups[..|groups| - 1]);
      PassAdvances(before, last.capture, last.payloads);
      hide RunPass, Advances;
      Transitive(db.captures, before.captures, RunPass(before, last.capture, last.payloads).db.captures);
    }
  }
}
