/**
 reconcile_order as one operation (paypal_checkout/orders.py): captures are matched with PayPal's
 order, then authorizations, then the refunds of whatever captures now have the ids PayPal names.
 The order row itself is not modelled.
 */
module WholeOrder {
  import opened Options
  import opened RefundRows
  import opened RefundReconcile
  import opened OrderReconcile
  import opened Reconciler
  import opened RefundListing
  import opened RefundPasses
  import opened RefundSignals
  import opened RefundStatuses
  import opened RefundStore
  import Attempts = AttemptReconcile

  datatype Authorization = Authorization(order: nat, paypalId: Option<string>, status: string, expires: Option<string>)

  /** The local tables. */
  datatype Site = Site(db: Db, authorizations: map<nat, Authorization>)

  /** PayPal's order: its captures, authorizations and refunds that carry an id. */
  datatype Document = Document(captures: seq<Attempts.Item>, authorizations: seq<Attempts.Item>, refunds: seq<Listing>)

  /** The tables and what is reported: the matches, adopted refunds, and the signals sent. */
  datatype Report = Report(
    site: Site,
    captures: Attempts.Match,
    authorizations: Attempts.Match,
    adopted: seq<Option<string>>,
    notified: seq<string>,
    refunded: seq<Option<string>>)

  // ---------- captures and authorizations as attempts ----------

  function CaptureAttempts(captures: map<nat, Capture>): map<nat, Attempts.Attempt> {
    map c | c in captures :: Attempts.Attempt(captures[c].order, captures[c].paypalId, captures[c].status == INITIATED)
  }

  function AuthorizationAttempts(rows: map<nat, Authorization>): map<nat, Attempts.Attempt> {
    map a | a in rows :: Attempts.Attempt(rows[a].order, rows[a].paypalId, rows[a].status == INITIATED)
  }

  /** Capture.update_from_payload. */
  function ConfirmCapture(c: Capture, item: Attempts.Item): Capture {
    c.(paypalId := Some(item.id),
       status := if item.status.Some? then item.status.value else c.status,
       final := if item.final.Some? then item.final.value else c.final)
  }

  /** Authorization.update_from_payload. */
  function ConfirmAuthorization(a: Authorization, item: Attempts.Item): Authorization {
    a.(paypalId := Some(item.id),
       status := if item.status.Some? then item.status.value else a.status,
       expires := if item.expires.Some? then item.expires else a.expires)
  }

  function ConfirmCaptures(captures: map<nat, Capture>, m: Attempts.Match): map<nat, Capture> {
    if m.Bind? && m.pk in captures then captures[m.pk := ConfirmCapture(captures[m.pk], m.item)] else captures
  }

  function ConfirmAuthorizations(rows: map<nat, Authorization>, m: Attempts.Match): map<nat, Authorization> {
    if m.Bind? && m.pk in rows then rows[m.pk := ConfirmAuthorization(rows[m.pk], m.item)] else rows
  }

  /** _notify: payment_captured or payment_denied for the capture just confirmed. */
  function Notified(captures: map<nat, Capture>, m: Attempts.Match): seq<string> {
    if m.Bind? && m.pk in captures &&
      ConfirmCapture(captures[m.pk], m.item).status in {"COMPLETED", "DECLINED", "FAILED"}
    then [m.item.id] else []
  }

  // ---------- the operation ----------

  ghost function CaptureMatch(s: Site, order: nat, doc: Document): Attempts.Match {
    Attempts.MatchOf(CaptureAttempts(s.db.captures), order, doc.captures)
  }

  ghost function AuthorizationMatch(s: Site, order: nat, doc: Document): Attempts.Match {
    Attempts.MatchOf(AuthorizationAttempts(s.authorizations), order, doc.authorizations)
  }

  /** The refund table with the capture ids the matching leaves. */
  ghost function Matched(s: Site, order: nat, doc: Document): Db {
    s.db.(captures := ConfirmCaptures(s.db.captures, CaptureMatch(s, order, doc)))
  }

  ghost function ReconcileOrder(s: Site, order: nat, own: seq<nat>, doc: Document): Report {
    var cm, am := CaptureMatch(s, order, doc), AuthorizationMatch(s, order, doc);
    var pass := RefundPass(Matched(s, order, doc), own, doc.refunds);
    Report(Site(pass.db, ConfirmAuthorizations(s.authorizations, am)), cm, am, pass.adopted,
           Notified(s.db.captures, cm), pass.signals)
  }

  // ---------- which rows are matched ----------

  /** An attempt of this order, not confirmed yet. */
  predicate IsOpen(of: nat, status: string, order: nat) {
    of == order && status == "INITIATED"
  }

  /** No capture has this object's id. */
  ghost predicate NewCapture(captures: map<nat, Capture>, items: seq<Attempts.Item>, k: nat)
    requires k < |items|
  {
    forall c :: c in captures ==> captures[c].paypalId != Some(items[k].id)
  }

  lemma CaptureNews(captures: map<nat, Capture>, items: seq<Attempts.Item>)
    ensures forall k :: 0 <= k < |items| ==>
      (NewCapture(captures, items, k) <==> Attempts.Unknown(CaptureAttempts(captures), items, k))
  {
    var rows := CaptureAttempts(captures);
    assert rows.Keys == captures.Keys && forall c :: c in captures ==> rows[c].paypalId == captures[c].paypalId;
    hide CaptureAttempts;
    forall k | 0 <= k < |items| ensures NewCapture(captures, items, k) <==> Attempts.Unknown(rows, items, k) {
    }
  }

  /** The order's INITIATED capture is matched exactly when it is the only one and the object the only new one. */
  lemma CaptureMatchIff(s: Site, order: nat, doc: Document, pk: nat, k: nat)
    requires pk in s.db.captures && IsOpen(s.db.captures[pk].order, s.db.captures[pk].status, order)
    requires k < |doc.captures| && NewCapture(s.db.captures, doc.captures, k)
    ensures CaptureMatch(s, order, doc) ==
      if (forall c :: c in s.db.captures && IsOpen(s.db.captures[c].order, s.db.captures[c].status, order) ==> c == pk)
         && (forall j :: 0 <= j < |doc.captures| && NewCapture(s.db.captures, doc.captures, j) ==> j == k)
      then Attempts.Bind(pk, doc.captures[k]) else Attempts.Ambiguous
  {
    var rows := CaptureAttempts(s.db.captures);
    CaptureNews(s.db.captures, doc.captures);
    assert forall c :: c in rows ==>
      rows[c].order == s.db.captures[c].order && (rows[c].initiated <==> s.db.captures[c].status == "INITIATED");
    hide Attempts.MatchOf, Attempts.Unknown, NewCapture, CaptureAttempts;
    Attempts.MatchIff(rows, order, doc.captures, pk, k);
  }

  lemma NoCaptureToMatch(s: Site, order: nat, doc: Document)
    requires (forall c :: c in s.db.captures ==> !IsOpen(s.db.captures[c].order, s.db.captures[c].status, order))
          || (forall k :: 0 <= k < |doc.captures| ==> !NewCapture(s.db.captures, doc.captures, k))
    ensures CaptureMatch(s, order, doc) == Attempts.Nothing
  {
    var rows := CaptureAttempts(s.db.captures);
    CaptureNews(s.db.captures, doc.captures);
    hide Attempts.MatchOf;
    Attempts.NothingToMatch(rows, order, doc.captures);
  }

  ghost predicate NewAuthorization(rows: map<nat, Authorization>, items: seq<Attempts.Item>, k: nat)
    requires k < |items|
  {
    forall a :: a in rows ==> rows[a].paypalId != Some(items[k].id)
  }

  lemma AuthorizationNews(all: map<nat, Authorization>, items: seq<Attempts.Item>)
    ensures forall k :: 0 <= k < |items| ==>
      (NewAuthorization(all, items, k) <==> Attempts.Unknown(AuthorizationAttempts(all), items, k))
  {
    var rows := AuthorizationAttempts(all);
    assert rows.Keys == all.Keys && forall a :: a in all ==> rows[a].paypalId == all[a].paypalId;
    hide AuthorizationAttempts;
    forall k | 0 <= k < |items| ensures NewAuthorization(all, items, k) <==> Attempts.Unknown(rows, items, k) {
    }
  }

  /** The same for authorizations. */
  lemma AuthorizationMatchIff(s: Site, order: nat, doc: Document, pk: nat, k: nat)
    requires pk in s.authorizations && IsOpen(s.authorizations[pk].order, s.authorizations[pk].status, order)
    requires k < |doc.authorizations| && NewAuthorization(s.authorizations, doc.authorizations, k)
    ensures AuthorizationMatch(s, order, doc) ==
      if (forall a :: a in s.authorizations && IsOpen(s.authorizations[a].order, s.authorizations[a].status, order) ==>
            a == pk)
         && (forall j :: 0 <= j < |doc.authorizations| && NewAuthorization(s.authorizations, doc.authorizations, j) ==>
               j == k)
      then Attempts.Bind(pk, doc.authorizations[k]) else Attempts.Ambiguous
  {
    var rows := AuthorizationAttempts(s.authorizations);
    AuthorizationNews(s.authorizations, doc.authorizations);
    assert forall a :: a in rows ==>
      rows[a].order == s.authorizations[a].order && (rows[a].initiated <==> s.authorizations[a].status == "INITIATED");
    hide Attempts.MatchOf, Attempts.Unknown, NewAuthorization, AuthorizationAttempts;
    Attempts.MatchIff(rows, order, doc.authorizations, pk, k);
  }

  lemma NoAuthorizationToMatch(s: Site, order: nat, doc: Document)
    requires (forall a :: a in s.authorizations ==>
                !IsOpen(s.authorizations[a].order, s.authorizations[a].status, order))
          || (forall k :: 0 <= k < |doc.authorizations| ==> !NewAuthorization(s.authorizations, doc.authorizations, k))
    ensures AuthorizationMatch(s, order, doc) == Attempts.Nothing
  {
    var rows := AuthorizationAttempts(s.authorizations);
    AuthorizationNews(s.authorizations, doc.authorizations);
    hide Attempts.MatchOf;
    Attempts.NothingToMatch(rows, order, doc.authorizations);
  }

  // ---------- what PayPal and the database guarantee ----------

  /** PayPal never sends the local-only status. */
  ghost predicate Remote(items: seq<Attempts.Item>) {
    forall i :: 0 <= i < |items| ==> items[i].status != Some(INITIATED)
  }

  ghost predicate SiteOk(s: Site, owner: string -> nat) {
    && TableOk(s.db) && Owned(s.db, owner)
    && Attempts.UniqueIds(CaptureAttempts(s.db.captures))
    && Attempts.UniqueIds(AuthorizationAttempts(s.authorizations))
  }

  /** Distinct ids, honest statuses, and each refund under its own capture, as the captures are named once matched. */
  ghost predicate DocumentOk(s: Site, order: nat, owner: string -> nat, own: seq<nat>, doc: Document) {
    && Attempts.DistinctIds(doc.captures) && Attempts.DistinctIds(doc.authorizations) && DistinctRefunds(doc.refunds)
    && Remote(doc.captures) && Remote(doc.authorizations)
    && RemoteOk(Matched(s, order, doc).captures, owner, own, doc.refunds)
  }

  // ---------- reconciling twice ----------

  /** The order's captures that a refund found completed took out of INITIATED during the run. */
  ghost function Settled(s: Site, order: nat, own: seq<nat>, doc: Document): set<nat> {
    Attempts.Local(CaptureAttempts(Matched(s, order, doc).captures), order)
      - Attempts.Local(CaptureAttempts(ReconcileOrder(s, order, own, doc).site.db.captures), order)
  }

  /** No row, id or authorization differs, nothing was bound or adopted, and nothing was signalled. */
  ghost predicate IdleReport(r: Report, before: Site) {
    && Strip(r.site.db) == Strip(before.db) && r.site.authorizations == before.authorizations
    && !r.captures.Bind? && !r.authorizations.Bind? && r.adopted == []
    && r.notified == [] && r.refunded == []
  }

  lemma MatchedItem(rows: map<nat, Attempts.Attempt>, order: nat, items: seq<Attempts.Item>)
    requires Remote(items) && Attempts.MatchOf(rows, order, items).Bind?
    ensures var m := Attempts.MatchOf(rows, order, items); m.pk in rows && m.item.status != Some(INITIATED)
  {
    Attempts.BoundFacts(rows, order, items);
  }

  lemma CapturesConfirmed(captures: map<nat, Capture>, m: Attempts.Match)
    requires m.Bind? ==> m.item.status != Some(INITIATED)
    ensures CaptureAttempts(ConfirmCaptures(captures, m)) == Attempts.AfterMatch(CaptureAttempts(captures), m)
  {}

  lemma AuthorizationsConfirmed(rows: map<nat, Authorization>, m: Attempts.Match)
    requires m.Bind? ==> m.item.status != Some(INITIATED)
    ensures AuthorizationAttempts(ConfirmAuthorizations(rows, m)) == Attempts.AfterMatch(AuthorizationAttempts(rows), m)
  {}

  lemma AdvancingSettles(before: map<nat, Capture>, after: map<nat, Capture>)
    requires Advances(before, after)
    ensures Attempts.Settles(CaptureAttempts(before), CaptureAttempts(after))
  {}

  /** The second run's matches, in terms of the first run's input. */
  lemma SecondMatches(s: Site, order: nat, own: seq<nat>, doc: Document)
    requires Attempts.UniqueIds(CaptureAttempts(s.db.captures))
    requires Attempts.UniqueIds(AuthorizationAttempts(s.authorizations))
    requires Attempts.DistinctIds(doc.captures) && Attempts.DistinctIds(doc.authorizations)
    requires Remote(doc.captures) && Remote(doc.authorizations)
    ensures var first := ReconcileOrder(s, order, own, doc).site;
      && CaptureMatch(first, order, doc).Bind?
         == Attempts.Rematches(CaptureAttempts(s.db.captures), order, doc.captures, Settled(s, order, own, doc))
      && AuthorizationMatch(first, order, doc).Bind?
         == Attempts.Rematches(AuthorizationAttempts(s.authorizations), order, doc.authorizations, {})
  {
    var first, mid := ReconcileOrder(s, order, own, doc).site, Matched(s, order, doc);
    var captures, authorizations := CaptureAttempts(s.db.captures), AuthorizationAttempts(s.authorizations);
    var cm, am := CaptureMatch(s, order, doc), AuthorizationMatch(s, order, doc);
    if cm.Bind? {
      MatchedItem(captures, order, doc.captures);
    }
    if am.Bind? {
      MatchedItem(authorizations, order, doc.authorizations);
    }
    CapturesConfirmed(s.db.captures, cm);
    AuthorizationsConfirmed(s.authorizations, am);
    PassesAdvance(mid, GroupsOf(mid.captures, own, doc.refunds));
    AdvancingSettles(mid.captures, first.db.captures);
    var settled := AuthorizationAttempts(first.authorizations);
    assert Attempts.Settles(settled, settled);
    assert Attempts.Local(settled, order) - Attempts.Local(settled, order) == {};
    hide Attempts.MatchOf, Attempts.Rematches, Attempts.Settles, RefundPass, CaptureAttempts, AuthorizationAttempts;
    Attempts.RematchIff(captures, CaptureAttempts(first.db.captures), order, doc.captures);
    Attempts.RematchIff(authorizations, settled, order, doc.authorizations);
  }

  lemma MatchedOk(s: Site, order: nat, owner: string -> nat, doc: Document)
    requires TableOk(s.db) && Owned(s.db, owner)
    ensures TableOk(Matched(s, order, doc)) && Owned(Matched(s, order, doc), owner)
  {}

  /**
   Reconciling the order again with the same document changes no capture id, authorization or refund
   row, binds and adopts nothing and sends no signal, if and only if neither matching leaves something
   to rematch and no refund pass rebinds on the table the matching leaves.
   */
  lemma ReconcileOrderTwiceIff(s: Site, order: nat, owner: string -> nat, own: seq<nat>, doc: Document)
    requires SiteOk(s, owner) && DocumentOk(s, order, owner, own, doc)
    ensures var first := ReconcileOrder(s, order, own, doc).site;
      IdleReport(ReconcileOrder(first, order, own, doc), first) <==>
        && !Attempts.Rematches(CaptureAttempts(s.db.captures), order, doc.captures, Settled(s, order, own, doc))
        && !Attempts.Rematches(AuthorizationAttempts(s.authorizations), order, doc.authorizations, {})
        && !ListingRebinds(Matched(s, order, doc), own, doc.refunds)
  {
    var first, mid := ReconcileOrder(s, order, own, doc).site, Matched(s, order, doc);
    MatchedOk(s, order, owner, doc);
    SecondMatches(s, order, own, doc);
    ListingTwiceIff(mid, owner, own, doc.refunds);
    hide RefundPass, Attempts.MatchOf, Attempts.Rematches, ListingRebinds,
      Strip, CaptureAttempts, AuthorizationAttempts;
  }

  /** After a run every listed refund of a known capture is on exactly one row, under it, if and
      only if no pass rebinds. */
  lemma ReconciledRefundsCarried(s: Site, order: nat, owner: string -> nat, own: seq<nat>, doc: Document)
    requires SiteOk(s, owner) && DocumentOk(s, order, owner, own, doc)
    ensures var mid := Matched(s, order, doc);
      (forall capture, p :: IsListed(mid.captures, own, doc.refunds, capture, p) ==>
         CarriedOnce(ReconcileOrder(s, order, own, doc).site.db.rows, capture, p.id))
      <==> !ListingRebinds(mid, own, doc.refunds)
  {
    MatchedOk(s, order, owner, doc);
    ListingCarriedOnceIff(Matched(s, order, doc), owner, own, doc.refunds);
  }

  // ---------- which captures settle in between ----------

  /** PayPal completes one of the capture's refunds, and by then a completed refund of it has moved money. */
  ghost predicate ReportedRefunded(db: Db, own: seq<nat>, refunds: seq<Listing>, capture: nat) {
    exists parent ::
      CaptureNamed(db.captures, own, parent) == Some(capture) && Settles(db, capture, Listed(refunds, parent))
  }

  /** A capture that is INITIATED when the refund passes begin leaves INITIATED exactly when a
      refund of it is reported. */
  lemma RefundsSettleIff(db: Db, owner: string -> nat, own: seq<nat>, refunds: seq<Listing>, capture: nat)
    requires TableOk(db) && Owned(db, owner) && RemoteOk(db.captures, owner, own, refunds) && DistinctRefunds(refunds)
    requires capture in db.captures && db.captures[capture].status == INITIATED
    ensures var after := RefundPass(db, own, refunds).db;
      capture in after.captures &&
      (after.captures[capture].status != INITIATED <==> ReportedRefunded(db, own, refunds, capture))
  {
    var groups := GroupsOf(db.captures, own, refunds);
    GroupsOfOk(db, owner, own, refunds);
    GroupsDistinct(db.captures, own, refunds);
    hide TableOk, Owned, RemoteOk, GroupsOf, RunPasses, Settles, DistinctRefunds, GroupOk;
    if k :| 0 <= k < |groups| && groups[k].capture == capture {
      var parent := ParentOfGroup(db.captures, own, refunds, k);
      PassesSettleIff(db, owner, groups, k);
      assert forall other :: CaptureNamed(db.captures, own, other) == Some(capture) ==> other == parent;
    } else {
      PassesElsewhere(db, owner, groups, capture);
      if parent :|
          CaptureNamed(db.captures, own, parent) == Some(capture)
          && Settles(db, capture, Listed(refunds, parent)) {
        SettlesSome(db, capture, Listed(refunds, parent));
        var k := GroupOfParent(db.captures, own, refunds, parent);
        assert false;
      }
    }
  }

  lemma SettlesSome(db: Db, capture: nat, payloads: seq<Payload>)
    requires Settles(db, capture, payloads)
    ensures payloads != []
  {}

  /** Settled, in terms of what is known before the refund passes. */
  lemma SettledIff(s: Site, order: nat, owner: string -> nat, own: seq<nat>, doc: Document, capture: nat)
    requires SiteOk(s, owner) && DocumentOk(s, order, owner, own, doc)
    ensures capture in Settled(s, order, own, doc) <==>
      && capture in Attempts.Local(CaptureAttempts(Matched(s, order, doc).captures), order)
      && ReportedRefunded(Matched(s, order, doc), own, doc.refunds, capture)
  {
    var mid := Matched(s, order, doc);
    MatchedOk(s, order, owner, doc);
    PassesAdvance(mid, GroupsOf(mid.captures, own, doc.refunds));
    if capture in Attempts.Local(CaptureAttempts(mid.captures), order) {
      RefundsSettleIff(mid, owner, own, doc.refunds, capture);
    }
    hide RefundPass, ReportedRefunded;
  }

  /** The order's unconfirmed captures that PayPal reports refunded. */
  ghost function Refunded(s: Site, order: nat, own: seq<nat>, doc: Document): set<nat> {
    set c | c in Attempts.Local(CaptureAttempts(Matched(s, order, doc).captures), order)
      && ReportedRefunded(Matched(s, order, doc), own, doc.refunds, c)
  }

  /** When a second reconciliation changes nothing, told from the tables and PayPal's order before the first one. */
  lemma ReconcileOrderTwiceForeseen(s: Site, order: nat, owner: string -> nat, own: seq<nat>, doc: Document)
    requires SiteOk(s, owner) && DocumentOk(s, order, owner, own, doc)
    ensures var first := ReconcileOrder(s, order, own, doc).site;
      IdleReport(ReconcileOrder(first, order, own, doc), first) <==>
        && !Attempts.Rematches(CaptureAttempts(s.db.captures), order, doc.captures, Refunded(s, order, own, doc))
        && !Attempts.Rematches(AuthorizationAttempts(s.authorizations), order, doc.authorizations, {})
        && !ListingRebinds(Matched(s, order, doc), own, doc.refunds)
  {
    hide SiteOk, DocumentOk, ReconcileOrder, IdleReport, Attempts.Rematches, ListingRebinds,
      ReportedRefunded, Settled;
    ReconcileOrderTwiceIff(s, order, owner, own, doc);
    forall c: nat ensures c in Settled(s, order, own, doc) <==> c in Refunded(s, order, own, doc) {
      SettledIff(s, order, owner, own, doc, c);
    }
    assert Settled(s, order, own, doc) == Refunded(s, order, own, doc);
  }

  // ---------- what the rows show afterwards ----------

  /** The refund passes leave a capture's status alone, unless a refund of it is reported. */
  lemma RefundsShow(db: Db, owner: string -> nat, own: seq<nat>, refunds: seq<Listing>, capture: nat)
    requires TableOk(db) && Owned(db, owner) && RemoteOk(db.captures, owner, own, refunds) && DistinctRefunds(refunds)
    requires capture in db.captures
    ensures var after := RefundPass(db, own, refunds).db;
      && capture in after.captures
      && if ReportedRefunded(db, own, refunds, capture) then SaysRefunded(after.captures[capture].status)
         else after.captures[capture].status == db.captures[capture].status
  {
    var groups := GroupsOf(db.captures, own, refunds);
    GroupsOfOk(db, owner, own, refunds);
    GroupsDistinct(db.captures, own, refunds);
    hide TableOk, Owned, RemoteOk, GroupsOf, RunPasses, Settles, DistinctRefunds, GroupOk, SaysRefunded;
    if k :| 0 <= k < |groups| && groups[k].capture == capture {
      var parent := ParentOfGroup(db.captures, own, refunds, k);
      PassesShow(db, owner, groups, k);
      assert forall other :: CaptureNamed(db.captures, own, other) == Some(capture) ==> other == parent;
    } else {
      PassesElsewhere(db, owner, groups, capture);
      if parent :|
          CaptureNamed(db.captures, own, parent) == Some(capture)
          && Settles(db, capture, Listed(refunds, parent)) {
        SettlesSome(db, capture, Listed(refunds, parent));
        var k := GroupOfParent(db.captures, own, refunds, parent);
        assert false;
      }
    }
  }

  /**
   After a run every capture shows what PayPal said of it: a bound one the object's id, its status and whether it is
   final, as far as the object tells; and REFUNDED or PARTIALLY_REFUNDED instead once a refund of it is reported.
   */
  lemma CapturesShow(s: Site, order: nat, owner: string -> nat, own: seq<nat>, doc: Document, c: nat)
    requires SiteOk(s, owner) && DocumentOk(s, order, owner, own, doc) && c in s.db.captures
    ensures var r, before := ReconcileOrder(s, order, own, doc), s.db.captures[c];
      var bound := r.captures.Bind? && r.captures.pk == c;
      && c in r.site.db.captures
      && var after := r.site.db.captures[c];
         var reported := if bound && r.captures.item.status.Some? then r.captures.item.status.value else before.status;
         && after.order == before.order && after.amount == before.amount
         && after.paypalId == (if bound then Some(r.captures.item.id) else before.paypalId)
         && after.final == (if bound && r.captures.item.final.Some? then r.captures.item.final.value else before.final)
         && if ReportedRefunded(Matched(s, order, doc), own, doc.refunds, c) then SaysRefunded(after.status)
            else after.status == reported
  {
    var mid := Matched(s, order, doc);
    MatchedOk(s, order, owner, doc);
    RefundsShow(mid, owner, own, doc.refunds, c);
    PassesAdvance(mid, GroupsOf(mid.captures, own, doc.refunds));
    hide Attempts.MatchOf, RunPasses, GroupsOf, ReportedRefunded, SaysRefunded, CaptureAttempts;
  }

  /** A bound authorization shows the object's id, its status and its expiry, as far as the object tells; the others
      stay as they are. */
  lemma AuthorizationsShow(s: Site, order: nat, own: seq<nat>, doc: Document, a: nat)
    requires a in s.authorizations
    ensures var r, before := ReconcileOrder(s, order, own, doc), s.authorizations[a];
      && r.site.authorizations.Keys == s.authorizations.Keys
      && r.site.authorizations[a] ==
           if r.authorizations.Bind? && r.authorizations.pk == a then
             var item := r.authorizations.item;
             Authorization(before.order, Some(item.id),
                           if item.status.Some? then item.status.value else before.status,
                           if item.expires.Some? then item.expires else before.expires)
           else before
  {
    hide Attempts.MatchOf, RefundPass, CaptureAttempts, AuthorizationAttempts;
  }

  /** One signal for the bound capture, when the match makes it completed, declined or failed; none otherwise. */
  lemma MatchSignals(s: Site, order: nat, own: seq<nat>, doc: Document)
    ensures var r := ReconcileOrder(s, order, own, doc);
      var told := r.captures.Bind? && r.captures.pk in s.db.captures
        && var status :=
             if r.captures.item.status.Some? then r.captures.item.status.value else s.db.captures[r.captures.pk].status;
           status == "COMPLETED" || status == "DECLINED" || status == "FAILED";
      r.notified == if told then [r.captures.item.id] else []
  {
    hide Attempts.MatchOf, RefundPass, CaptureAttempts, AuthorizationAttempts;
    var cm := CaptureMatch(s, order, doc);
    if cm.Bind? && cm.pk in s.db.captures {
      var status := ConfirmCapture(s.db.captures[cm.pk], cm.item).status;
      assert status in {"COMPLETED", "DECLINED", "FAILED"} <==>
        status == "COMPLETED" || status == "DECLINED" || status == "FAILED";
    }
  }

  /** payment_refunded is sent exactly for the listed refunds that PayPal newly reports completed, once each. */
  lemma RunAnnounces(s: Site, order: nat, owner: string -> nat, own: seq<nat>, doc: Document)
    requires SiteOk(s, owner) && DocumentOk(s, order, owner, own, doc)
    ensures var refunded, captures := ReconcileOrder(s, order, own, doc).refunded, Matched(s, order, doc).captures;
      && Distinct(refunded)
      && forall id :: id in refunded <==>
           exists c, p :: IsListed(captures, own, doc.refunds, c, p) && p.id == id && NewlyCompleted(s.db.rows, c, p)
  {
    var mid := Matched(s, order, doc);
    var groups := GroupsOf(mid.captures, own, doc.refunds);
    MatchedOk(s, order, owner, doc);
    GroupsOfOk(mid, owner, own, doc.refunds);
    GroupsDistinct(mid.captures, own, doc.refunds);
    hide TableOk, Owned, RemoteOk, GroupsOf, RunPasses, DistinctRefunds, GroupsOk, IsListed, NewlyCompleted,
      CaptureAttempts, Attempts.MatchOf;
    PassesAnnounce(mid, owner, groups);
    forall id ensures NewlyCompletedIn(mid.rows, groups, id) <==>
      exists c, p :: IsListed(mid.captures, own, doc.refunds, c, p) && p.id == id && NewlyCompleted(mid.rows, c, p)
    {
      if k, i :| 0 <= k < |groups| && 0 <= i < |groups[k].payloads| && groups[k].payloads[i].id == id
                 && NewlyCompleted(mid.rows, groups[k].capture, groups[k].payloads[i]) {
        GroupIsListed(mid.captures, own, doc.refunds, k, i);
      }
      if c, p :| IsListed(mid.captures, own, doc.refunds, c, p) && p.id == id && NewlyCompleted(mid.rows, c, p) {
        var k, i := ListedInGroup(mid.captures, own, doc.refunds, c, p);
      }
    }
  }

  // ---------- an ambiguity that resolves itself ----------

  /** Two unconfirmed captures, one of them answered with id C and an unknown status and since partly refunded. */
  const TWO_LOCAL := Site(
    Db(map[0 := Capture(1, Some("C"), 10, INITIATED, true), 1 := Capture(1, None, 10, INITIATED, true)],
       map[0 := Refund(0, None, Some("R"), Pending, 4, "", "", None, [])], 1),
    map[])

  /** PayPal lists that capture, still of unknown status, another one D, and the refund, now completed. */
  const PARTLY_REFUNDED := Document(
    [Attempts.Item("C", None, None, None), Attempts.Item("D", Some("COMPLETED"), None, None)], [],
    [Listing(Some("C"), Payload(Some("R"), Some(Completed), Some(4)))])

  function AllToZero(id: string): nat { 0 }

  lemma NarrowingSite()
    ensures SiteOk(TWO_LOCAL, AllToZero)
  {}

  lemma NarrowingMatch()
    ensures var captures := CaptureAttempts(TWO_LOCAL.db.captures);
      && Attempts.Local(captures, 1) == {0, 1}
      && Attempts.Unmatched(captures, PARTLY_REFUNDED.captures) == [PARTLY_REFUNDED.captures[1]]
    ensures CaptureMatch(TWO_LOCAL, 1, PARTLY_REFUNDED).Ambiguous?
  {
    var captures, items := CaptureAttempts(TWO_LOCAL.db.captures), PARTLY_REFUNDED.captures;
    assert "C"[0] != "D"[0];
    assert captures[0].paypalId == Some("C") && captures[1].paypalId == None;
    assert forall j :: 0 <= j < |items| ==> (Attempts.Known(captures, items[j].id) <==> j != 1);
    Attempts.UnmatchedOnly(captures, items, 1);
    assert Attempts.Local(captures, 1) == {0, 1};
    assert |{0, 1}| == 2;
  }

  lemma NarrowingDocument()
    requires CaptureMatch(TWO_LOCAL, 1, PARTLY_REFUNDED).Ambiguous?
    ensures Matched(TWO_LOCAL, 1, PARTLY_REFUNDED) == TWO_LOCAL.db
    ensures DocumentOk(TWO_LOCAL, 1, AllToZero, [0, 1], PARTLY_REFUNDED)
  {
    hide CaptureMatch;
    assert "C"[0] != "D"[0];
  }

  lemma NarrowingInput()
    ensures SiteOk(TWO_LOCAL, AllToZero)
    ensures var captures := CaptureAttempts(TWO_LOCAL.db.captures);
      && Attempts.Local(captures, 1) == {0, 1}
      && Attempts.Unmatched(captures, PARTLY_REFUNDED.captures) == [PARTLY_REFUNDED.captures[1]]
    ensures CaptureMatch(TWO_LOCAL, 1, PARTLY_REFUNDED).Ambiguous?
    ensures Matched(TWO_LOCAL, 1, PARTLY_REFUNDED) == TWO_LOCAL.db
    ensures DocumentOk(TWO_LOCAL, 1, AllToZero, [0, 1], PARTLY_REFUNDED)
  {
    hide *;
    NarrowingSite();
    NarrowingMatch();
    NarrowingDocument();
  }

  lemma OnlyFirstSettles()
    ensures Settled(TWO_LOCAL, 1, [0, 1], PARTLY_REFUNDED) == {0}
  {
    NarrowingInput();
    hide SiteOk, DocumentOk, Settled, ReportedRefunded, CaptureMatch, Matched;
    forall c: nat ensures c in Settled(TWO_LOCAL, 1, [0, 1], PARTLY_REFUNDED) <==> c == 0 {
      SettledIff(TWO_LOCAL, 1, AllToZero, [0, 1], PARTLY_REFUNDED, c);
      OnlyFirstReported(c);
    }
  }

  lemma NarrowedRematches()
    ensures Attempts.Rematches(CaptureAttempts(TWO_LOCAL.db.captures), 1, PARTLY_REFUNDED.captures, {0})
  {
    NarrowingInput();
    hide Attempts.Unmatched, Attempts.Local, SiteOk, DocumentOk;
    assert {0, 1} - {0} == {1};
  }

  /** The first run reports the captures as ambiguous, the second binds one of them. */
  lemma AmbiguityNarrows()
    ensures var first := ReconcileOrder(TWO_LOCAL, 1, [0, 1], PARTLY_REFUNDED);
      first.captures.Ambiguous? && CaptureMatch(first.site, 1, PARTLY_REFUNDED).Bind?
  {
    NarrowingInput();
    OnlyFirstSettles();
    NarrowedRematches();
    hide CaptureMatch, Matched, Settled, RefundPass, Attempts.Rematches, CaptureAttempts, TableOk, Owned, RemoteOk;
    SecondMatches(TWO_LOCAL, 1, [0, 1], PARTLY_REFUNDED);
  }

  lemma FirstSettles()
    ensures Listed(PARTLY_REFUNDED.refunds, "C") == [PARTLY_REFUNDED.refunds[0].payload]
    ensures Settles(TWO_LOCAL.db, 0, Listed(PARTLY_REFUNDED.refunds, "C"))
  {
    var db, refunds := TWO_LOCAL.db, PARTLY_REFUNDED.refunds;
    var payloads := [refunds[0].payload];
    assert refunds[..0] == [] && Listed(refunds, "C") == payloads;
    hide Settles, SettlesAt, Listed;
    FirstCompletes();
    FirstRefreshed();
    SettlesAtOnly(db.rows, 0, payloads);
    SettledByRow(db, 0, payloads, 0);
  }

  lemma SettlesAtOnly(rows: map<nat, Refund>, capture: nat, payloads: seq<Payload>)
    requires |payloads| == 1 && CompletesRow(rows, capture, payloads[0])
    requires MoneyBack(RefreshRows(rows, capture, payloads), capture)
    ensures SettlesAt(rows, capture, payloads, 0)
  {
    assert payloads[..1] == payloads;
  }

  lemma FirstCompletes()
    ensures CompletesRow(TWO_LOCAL.db.rows, 0, PARTLY_REFUNDED.refunds[0].payload)
  {
    assert TWO_LOCAL.db.rows[0].paypalId == PARTLY_REFUNDED.refunds[0].payload.id;
  }

  lemma FirstRefreshed()
    ensures MoneyBack(RefreshRows(TWO_LOCAL.db.rows, 0, [PARTLY_REFUNDED.refunds[0].payload]), 0)
  {
    var row, p := TWO_LOCAL.db.rows[0], PARTLY_REFUNDED.refunds[0].payload;
    assert [p][..0] == [] && Refreshed(row, []) == row;
    assert Refreshed(row, [p]) == UpdateFromPayload(row, p);
    var rows := RefreshRows(TWO_LOCAL.db.rows, 0, [p]);
    assert 0 in rows && CompletedAt(rows, 0, 0) == 4;
  }

  lemma SettledByRow(db: Db, capture: nat, payloads: seq<Payload>, i: nat)
    requires i < |payloads| && SettlesAt(db.rows, capture, payloads, i)
    ensures Settles(db, capture, payloads)
  {}

  lemma OnlyFirstReported(c: nat)
    ensures ReportedRefunded(TWO_LOCAL.db, [0, 1], PARTLY_REFUNDED.refunds, c) <==> c == 0
  {
    var db, refunds := TWO_LOCAL.db, PARTLY_REFUNDED.refunds;
    FirstSettles();
    assert CaptureNamed(db.captures, [0, 1], "C") == Some(0);
    hide Settles;
    if parent :| CaptureNamed(db.captures, [0, 1], parent) == Some(c) && Settles(db, c, Listed(refunds, parent)) {
      SettlesSome(db, c, Listed(refunds, parent));
      var i := ListedFrom(refunds, parent, 0);
    }
  }

  // ---------- the method ----------

  class Ledger {
    const store: Store
    var authorizations: map<nat, Authorization>

    constructor (store: Store, authorizations: map<nat, Authorization>)
      ensures this.store == store && this.authorizations == authorizations
    {
      this.store, this.authorizations := store, authorizations;
    }

    function View(): Site
      reads this, store
    {
      Site(store.State(), authorizations)
    }

    /** reconcile_order, once PayPal's order is fetched. */
    method Reconcile(order: nat, own: seq<nat>, doc: Document)
      returns (captures: Attempts.Match, holds: Attempts.Match, adopted: seq<Option<string>>, notified: seq<string>,
               refunded: seq<Option<string>>)
      requires TableOk(store.State()) && forall i :: 0 <= i < |doc.refunds| ==> doc.refunds[i].payload.id.Some?
      modifies this, store
      ensures TableOk(store.State())
      ensures Report(View(), captures, holds, adopted, notified, refunded) ==
        ReconcileOrder(old(View()), order, own, doc)
    {
      hide Attempts.MatchOf, Attempts.Known, RefundPass, CaptureAttempts, AuthorizationAttempts;
      notified := [];
      captures := Attempts.FindMatch(CaptureAttempts(store.captures), order, doc.captures);
      if captures.Bind? && captures.pk in store.captures {
        var row := ConfirmCapture(store.captures[captures.pk], captures.item);
        store.captures := store.captures[captures.pk := row];
        if row.status == "COMPLETED" || row.status == "DECLINED" || row.status == "FAILED" {
          notified := [captures.item.id];
        }
      }
      holds := Attempts.FindMatch(AuthorizationAttempts(authorizations), order, doc.authorizations);
      if holds.Bind? && holds.pk in authorizations {
        authorizations := authorizations[holds.pk := ConfirmAuthorization(authorizations[holds.pk], holds.item)];
      }
      adopted, refunded := ReconcileRefunds(store, own, doc.refunds);
    }
  }
}
