/**
 Reconciling all refunds of an order: one pass per capture that PayPal's order names
 (the loop over by_capture in _reconcile_refunds, paypal_checkout/orders.py).
 */
module OrderReconcile {
  import opened RefundRows
  import opened RefundReconcile

  /** The refunds PayPal lists under one capture of the order. */
  datatype Group = Group(capture: nat, payloads: seq<Payload>)

  function PassAll(db: Db, groups: seq<Group>): Pass {
    if groups == [] then Pass(db, [], [])
    else
      var last := groups[|groups| - 1];
      var before := PassAll(db, groups[..|groups| - 1]);
      var pass := PassCapture(before.db, last.capture, last.payloads);
      Pass(pass.db, before.adopted + pass.adopted, before.signals + pass.signals)
  }

  /** PayPal's rule: each refund belongs to one capture, and every row respects it. */
  ghost predicate Owned(db: Db, owner: string -> nat) {
    forall pk :: pk in db.rows && db.rows[pk].paypalId.Some? ==>
      owner(db.rows[pk].paypalId.value) == db.rows[pk].capture
  }

  ghost predicate GroupOk(db: Db, owner: string -> nat, g: Group) {
    && g.capture in db.captures
    && forall i :: 0 <= i < |g.payloads| ==> Honest(g.payloads[i]) && owner(g.payloads[i].id.value) == g.capture
  }

  ghost predicate GroupsOk(db: Db, owner: string -> nat, groups: seq<Group>) {
    && (forall i :: 0 <= i < |groups| ==> GroupOk(db, owner, groups[i]))
    && (forall i, j :: 0 <= i < j < |groups| ==> groups[i].capture != groups[j].capture)
  }

  lemma GroupPayloadsOk(db: Db, owner: string -> nat, g: Group)
    requires Owned(db, owner) && GroupOk(db, owner, g)
    ensures PayloadsOk(db, g.capture, g.payloads)
  {}

  lemma UnmatchedOwned(db: Db, owner: string -> nat, g: Group)
    requires GroupOk(db, owner, g)
    ensures var unmatched := Unmatched(db.rows, g.capture, g.payloads);
      forall i :: 0 <= i < |unmatched| ==> unmatched[i].id.Some? && owner(unmatched[i].id.value) == g.capture
  {
    UnmatchedMembers(db.rows, g.capture, g.payloads);
    var unmatched := Unmatched(db.rows, g.capture, g.payloads);
    hide Unmatched;
    forall i | 0 <= i < |unmatched| ensures unmatched[i].id.Some? && owner(unmatched[i].id.value) == g.capture {
      assert unmatched[i] in unmatched;
      var j :| 0 <= j < |g.payloads| && g.payloads[j] == unmatched[i];
    }
  }

  lemma AdoptedOwned(refreshed: Db, after: Db, owner: string -> nat, capture: nat, unmatched: seq<Payload>)
    requires Owned(refreshed, owner) && Gathers(refreshed, after, capture, unmatched)
    requires forall i :: 0 <= i < |unmatched| ==> unmatched[i].id.Some? && owner(unmatched[i].id.value) == capture
    ensures Owned(after, owner)
  {
    hide TableOk, Knows;
  }

  lemma PassOwned(db: Db, owner: string -> nat, g: Group)
    requires TableOk(db) && Owned(db, owner) && GroupOk(db, owner, g)
    ensures Owned(PassCapture(db, g.capture, g.payloads).db, owner)
  {
    var capture, payloads := g.capture, g.payloads;
    var refreshed, unmatched := AfterRefresh(db, capture, payloads), Unmatched(db.rows, capture, payloads);
    GroupPayloadsOk(db, owner, g);
    UnmatchedOwned(db, owner, g);
    RefreshKeeps(db, capture, payloads);
    hide TableOk, PassCapture, RefreshRows, PayloadsOk, Unmatched;
    assert Owned(refreshed, owner);
    if Binds(db, capture, payloads) {
      PassBinds(db, capture, payloads);
      BoundRow(db, capture, payloads);
    } else {
      PassKeepsTable(db, capture, payloads);
      hide Owned, Gathers;
      AdoptedOwned(refreshed, PassCapture(db, capture, payloads).db, owner, capture, unmatched);
    }
  }

  /** What holds while the loop runs. */
  lemma {:induction false} PassAllKeeps(db: Db, owner: string -> nat, groups: seq<Group>)
    requires TableOk(db) && Owned(db, owner) && GroupsOk(db, owner, groups)
    ensures TableOk(PassAll(db, groups).db) && Owned(PassAll(db, groups).db, owner)
    ensures PassAll(db, groups).db.captures == db.captures
  {
    if groups != [] {
      var last, mid := groups[|groups| - 1], PassAll(db, groups[..|groups| - 1]).db;
      PassAllKeeps(db, owner, groups[..|groups| - 1]);
      GroupPayloadsOk(mid, owner, last);
      PassKeepsTable(mid, last.capture, last.payloads);
      PassOwned(mid, owner, last);
    }
  }

  /** The passes over other captures leave a capture's rows as they are. */
  lemma {:induction false} PassAllFrame(db: Db, owner: string -> nat, groups: seq<Group>, capture: nat)
    requires TableOk(db) && Owned(db, owner) && GroupsOk(db, owner, groups)
    requires forall i :: 0 <= i < |groups| ==> groups[i].capture != capture
    ensures Under(PassAll(db, groups).db.rows, capture) == Under(db.rows, capture)
  {
    if groups != [] {
      var before, last := groups[..|groups| - 1], groups[|groups| - 1];
      PassAllFrame(db, owner, before, capture);
      PassAllKeeps(db, owner, before);
      GroupPayloadsOk(PassAll(db, before).db, owner, last);
      PassFrame(PassAll(db, before).db, last.capture, last.payloads, capture);
    }
  }

  /** The state in which the k-th group is handled. */
  function At(db: Db, groups: seq<Group>, k: nat): Db
    requires k <= |groups|
  {
    PassAll(db, groups[..k]).db
  }

  lemma AtGroup(db: Db, owner: string -> nat, groups: seq<Group>, k: nat)
    requires TableOk(db) && Owned(db, owner) && GroupsOk(db, owner, groups) && k < |groups|
    ensures TableOk(At(db, groups, k)) && At(db, groups, k).captures == db.captures
    ensures PayloadsOk(At(db, groups, k), groups[k].capture, groups[k].payloads)
    ensures Under(At(db, groups, k).rows, groups[k].capture) == Under(db.rows, groups[k].capture)
    ensures At(db, groups, k + 1) == PassCapture(At(db, groups, k), groups[k].capture, groups[k].payloads).db
  {
    PassAllKeeps(db, owner, groups[..k]);
    GroupPayloadsOk(At(db, groups, k), owner, groups[k]);
    PassAllFrame(db, owner, groups[..k], groups[k].capture);
    assert groups[..k + 1][..k] == groups[..k];
  }

  /** Later passes leave the capture's rows as its own pass left them. */
  lemma {:induction false} AfterGroup(db: Db, owner: string -> nat, groups: seq<Group>, k: nat)
    requires TableOk(db) && Owned(db, owner) && GroupsOk(db, owner, groups) && k < |groups|
    ensures Under(PassAll(db, groups).db.rows, groups[k].capture) ==
      Under(At(db, groups, k + 1).rows, groups[k].capture)
    decreases |groups|
  {
    hide PassCapture;
    if k == |groups| - 1 {
      assert groups[..k + 1] == groups;
      hide PassAll, Under;
    } else {
      var before, last := groups[..|groups| - 1], groups[|groups| - 1];
      assert before[..k + 1] == groups[..k + 1] && GroupsOk(db, owner, before);
      hide TableOk, Owned, Under, PassAll;
      AfterGroup(db, owner, before, k);
      AtGroup(db, owner, groups, |groups| - 1);
      hide PayloadsOk, PassCapture;
      PassFrame(At(db, groups, |groups| - 1), last.capture, last.payloads, groups[k].capture);
      assert groups[..|groups|] == groups;
    }
  }

  /** The rows of one capture once the order is reconciled, in terms of its own rows and payloads only. */
  ghost predicate Reconciled(db: Db, after: Db, capture: nat, payloads: seq<Payload>)
    requires capture in db.captures
  {
    && (forall pk :: pk in Under(db.rows, capture) ==>
          pk in Under(after.rows, capture) && after.rows[pk] == Kept(db, capture, payloads, pk))
    && exists base :: Lands(db, after, capture, Inserted(db, capture, payloads), base)
  }

  lemma ReconciledAt(db: Db, mid: Db, after: Db, final: Db, capture: nat, payloads: seq<Payload>)
    requires capture in db.captures && mid.captures == db.captures
    requires Under(mid.rows, capture) == Under(db.rows, capture)
    requires Under(final.rows, capture) == Under(after.rows, capture)
    requires Effect(mid, after, capture, payloads)
    ensures Reconciled(db, final, capture, payloads)
  {
    PassLocal(mid, db, capture, payloads);
    hide Kept, Inserted;
    forall pk | pk in Under(db.rows, capture)
      ensures pk in Under(final.rows, capture) && final.rows[pk] == Kept(db, capture, payloads, pk)
    {
      assert pk in Under(mid.rows, capture);
      KeptStays(mid, capture, payloads, pk);
      assert pk in Under(after.rows, capture);
      assert Under(final.rows, capture)[pk] == after.rows[pk];
    }
    var inserted, base := Inserted(db, capture, payloads), mid.nextPk;
    forall i | 0 <= i < |inserted| ensures Holds(final.rows, base + i, inserted[i]) {
      InsertedUnder(mid, capture, payloads, i);
      assert Holds(after.rows, base + i, inserted[i]);
      assert base + i in Under(after.rows, capture);
      assert Under(final.rows, capture)[base + i] == after.rows[base + i];
    }
    forall pk | pk in final.rows && pk !in db.rows && final.rows[pk].capture == capture
      ensures base <= pk < base + |inserted|
    {
      assert pk in Under(final.rows, capture) && pk in Under(after.rows, capture);
      assert pk !in Under(mid.rows, capture);
      assert pk !in mid.rows by {
        if pk in mid.rows {
          assert after.rows[pk] == Kept(mid, capture, payloads, pk);
          KeptStays(mid, capture, payloads, pk);
        }
      }
    }
    assert Lands(db, final, capture, inserted, base);
  }

  lemma KeptStays(db: Db, capture: nat, payloads: seq<Payload>, pk: nat)
    requires pk in db.rows
    ensures Kept(db, capture, payloads, pk).capture == db.rows[pk].capture
  {
    RefreshedKeeps(db.rows[pk], payloads);
  }

  lemma InsertedUnder(db: Db, capture: nat, payloads: seq<Payload>, i: nat)
    requires capture in db.captures && i < |Inserted(db, capture, payloads)|
    ensures Inserted(db, capture, payloads)[i].capture == capture
  {
    CreatedSame(db, db, capture, Unmatched(db.rows, capture, payloads));
  }

  /** A capture's outcome depends only on its own payloads: the other groups and their order do not appear in it. */
  lemma OutcomeByCapture(db: Db, owner: string -> nat, groups: seq<Group>, k: nat)
    requires TableOk(db) && Owned(db, owner) && GroupsOk(db, owner, groups) && k < |groups|
    ensures Reconciled(db, PassAll(db, groups).db, groups[k].capture, groups[k].payloads)
  {
    var capture, payloads := groups[k].capture, groups[k].payloads;
    AtGroup(db, owner, groups, k);
    AfterGroup(db, owner, groups, k);
    PassEffect(At(db, groups, k), capture, payloads);
    ReconciledAt(db, At(db, groups, k), At(db, groups, k + 1), PassAll(db, groups).db, capture, payloads);
  }

  /** Some pass of the loop bound an attempt that already carried another listed refund. */
  ghost predicate SomeRebinds(db: Db, groups: seq<Group>) {
    exists k :: 0 <= k < |groups| && Rebinds(db, groups[k].capture, groups[k].payloads)
  }

  lemma KnownAfterAll(db: Db, owner: string -> nat, groups: seq<Group>, k: nat, i: nat)
    requires TableOk(db) && Owned(db, owner) && GroupsOk(db, owner, groups)
    requires k < |groups| && i < |groups[k].payloads|
    ensures CarriedOnce(PassAll(db, groups).db.rows, groups[k].capture, groups[k].payloads[i].id)
       <==> Knows(At(db, groups, k + 1).rows, groups[k].capture, groups[k].payloads[i])
  {
    var capture, p := groups[k].capture, groups[k].payloads[i];
    assert GroupOk(db, owner, groups[k]) && Honest(p);
    PassAllKeeps(db, owner, groups);
    AfterGroup(db, owner, groups, k);
    KnowsLocal(PassAll(db, groups).db.rows, At(db, groups, k + 1).rows, capture, p);
    KnownIsCarriedOnce(PassAll(db, groups).db, capture, p);
  }

  /** Every listed refund ends up on exactly one row, under its capture, exactly when no pass rebinds. */
  lemma AllCarriedOnceIff(db: Db, owner: string -> nat, groups: seq<Group>)
    requires TableOk(db) && Owned(db, owner) && GroupsOk(db, owner, groups)
    ensures (forall k, i :: 0 <= k < |groups| && 0 <= i < |groups[k].payloads| ==>
               CarriedOnce(PassAll(db, groups).db.rows, groups[k].capture, groups[k].payloads[i].id))
       <==> !SomeRebinds(db, groups)
  {
    forall k | 0 <= k < |groups|
      ensures (forall i :: 0 <= i < |groups[k].payloads| ==>
                 CarriedOnce(PassAll(db, groups).db.rows, groups[k].capture, groups[k].payloads[i].id))
         <==> !Rebinds(db, groups[k].capture, groups[k].payloads)
    {
      GroupCarriedIff(db, owner, groups, k);
    }
  }

  lemma GroupCarriedIff(db: Db, owner: string -> nat, groups: seq<Group>, k: nat)
    requires TableOk(db) && Owned(db, owner) && GroupsOk(db, owner, groups) && k < |groups|
    ensures (forall i :: 0 <= i < |groups[k].payloads| ==>
               CarriedOnce(PassAll(db, groups).db.rows, groups[k].capture, groups[k].payloads[i].id))
       <==> !Rebinds(db, groups[k].capture, groups[k].payloads)
  {
    var capture, payloads, mid := groups[k].capture, groups[k].payloads, At(db, groups, k);
    AtGroup(db, owner, groups, k);
    CarriedOnceIff(mid, capture, payloads);
    PassLocal(mid, db, capture, payloads);
    PassKeepsTable(mid, capture, payloads);
    forall i | 0 <= i < |payloads|
      ensures CarriedOnce(PassAll(db, groups).db.rows, capture, payloads[i].id)
         <==> CarriedOnce(At(db, groups, k + 1).rows, capture, payloads[i].id)
    {
      KnownAfterAll(db, owner, groups, k, i);
      assert GroupOk(db, owner, groups[k]) && Honest(payloads[i]);
      KnownIsCarriedOnce(At(db, groups, k + 1), capture, payloads[i]);
    }
  }

  // ---------- reconciling twice ----------

  lemma {:induction false} AllQuietIsNoOp(db: Db, groups: seq<Group>)
    requires forall k :: 0 <= k < |groups| ==> Quiet(db.rows, groups[k].capture, groups[k].payloads)
    ensures PassAll(db, groups) == Pass(db, [], [])
  {
    if groups != [] {
      AllQuietIsNoOp(db, groups[..|groups| - 1]);
      var last := groups[|groups| - 1];
      QuietIsNoOp(db, last.capture, last.payloads);
    }
  }

  lemma AdoptsUnmatched(db: Db, capture: nat, payloads: seq<Payload>)
    ensures Unmatched(db.rows, capture, payloads) != [] ==> PassCapture(db, capture, payloads).adopted != []
  {
    hide RefreshRows, RefreshSignals, Unmatched, SettleRefund, AdoptRemoteRefund;
    var unmatched := Unmatched(db.rows, capture, payloads);
    assert unmatched != [] ==> AdoptAll(AfterRefresh(db, capture, payloads), capture, unmatched).adopted != [];
  }

  lemma AdoptedParts(db: Db, groups: seq<Group>)
    requires groups != [] && PassAll(db, groups).adopted == []
    ensures var n := |groups| - 1;
      && PassAll(db, groups[..n]).adopted == []
      && PassCapture(At(db, groups, n), groups[n].capture, groups[n].payloads).adopted == []
  {
    hide PassCapture;
  }

  /** A pass that adopts and binds nothing found every refund on a row. */
  lemma {:induction false} NothingAdopted(db: Db, owner: string -> nat, groups: seq<Group>, k: nat)
    requires TableOk(db) && Owned(db, owner) && GroupsOk(db, owner, groups) && k < |groups|
    requires PassAll(db, groups).adopted == []
    ensures Unmatched(db.rows, groups[k].capture, groups[k].payloads) == []
    decreases |groups|
  {
    hide TableOk, Owned, PassAll, Under, PassCapture, Unmatched, PayloadsOk, At, GroupOk;
    AdoptedParts(db, groups);
    var before, last := groups[..|groups| - 1], groups[|groups| - 1];
    if k < |before| {
      assert GroupsOk(db, owner, before);
      NothingAdopted(db, owner, before, k);
    } else {
      AtGroup(db, owner, groups, k);
      AdoptsUnmatched(At(db, groups, k), last.capture, last.payloads);
      UnmatchedLocal(At(db, groups, k).rows, db.rows, last.capture, last.payloads);
    }
  }

  /** After a pass that rebinds, some listed refund has no row. */
  lemma RebindLeavesUnmatched(db: Db, owner: string -> nat, groups: seq<Group>) returns (k: nat)
    requires TableOk(db) && Owned(db, owner) && GroupsOk(db, owner, groups) && SomeRebinds(db, groups)
    ensures k < |groups| && Unmatched(PassAll(db, groups).db.rows, groups[k].capture, groups[k].payloads) != []
  {
    var after := PassAll(db, groups).db;
    PassAllKeeps(db, owner, groups);
    AllCarriedOnceIff(db, owner, groups);
    var i;
    k, i :| 0 <= k < |groups| && 0 <= i < |groups[k].payloads|
      && !CarriedOnce(after.rows, groups[k].capture, groups[k].payloads[i].id);
    assert GroupOk(db, owner, groups[k]) && Honest(groups[k].payloads[i]);
    hide TableOk, Owned, PassAll, Unmatched;
    KnownIsCarriedOnce(after, groups[k].capture, groups[k].payloads[i]);
    UnmatchedEmpty(after.rows, groups[k].capture, groups[k].payloads);
  }

  lemma QuietAfterAll(db: Db, owner: string -> nat, groups: seq<Group>, k: nat)
    requires TableOk(db) && Owned(db, owner) && GroupsOk(db, owner, groups) && !SomeRebinds(db, groups)
    requires k < |groups| && DistinctIds(groups[k].payloads)
    ensures Quiet(PassAll(db, groups).db.rows, groups[k].capture, groups[k].payloads)
  {
    var mid, capture, payloads := At(db, groups, k), groups[k].capture, groups[k].payloads;
    assert !Rebinds(db, capture, payloads);
    assert capture in db.captures by {
      assert GroupOk(db, owner, groups[k]);
    }
    AtGroup(db, owner, groups, k);
    AfterGroup(db, owner, groups, k);
    hide TableOk, Owned, PassAll, Under, At, PassCapture, PayloadsOk, Quiet, DistinctIds;
    PassLocal(mid, db, capture, payloads);
    PassIsQuiet(mid, capture, payloads);
    QuietLocal(At(db, groups, k + 1).rows, PassAll(db, groups).db.rows, capture, payloads);
  }

  /**
   Reconciling the order again with the same refunds changes no row, adopts nothing and sends
   no signal, exactly when the first pass rebound nothing.
   */
  lemma ReconcilingTwiceIff(db: Db, owner: string -> nat, groups: seq<Group>)
    requires TableOk(db) && Owned(db, owner) && GroupsOk(db, owner, groups)
    requires forall k :: 0 <= k < |groups| ==> DistinctIds(groups[k].payloads)
    ensures var after := PassAll(db, groups).db;
            PassAll(after, groups) == Pass(after, [], []) <==> !SomeRebinds(db, groups)
  {
    var after := PassAll(db, groups).db;
    if SomeRebinds(db, groups) {
      var k := RebindLeavesUnmatched(db, owner, groups);
      PassAllKeeps(db, owner, groups);
      hide TableOk, Owned, PassAll, Unmatched;
      if PassAll(after, groups).adopted == [] {
        assert GroupsOk(after, owner, groups);
        NothingAdopted(after, owner, groups, k);
      }
    } else {
      forall k | 0 <= k < |groups| ensures Quiet(after.rows, groups[k].capture, groups[k].payloads) {
        QuietAfterAll(db, owner, groups, k);
      }
      AllQuietIsNoOp(after, groups);
    }
  }
}
