/**
 PayPal's refunds of an order as it lists them: grouped by the capture they name, resolved to the
 order's captures, and what the refund passes make of them (_reconcile_refunds, paypal_checkout/orders.py).
 */
module RefundListing {
  import opened Options
  import opened RefundRows
  import opened RefundReconcile
  import opened OrderReconcile
  import opened RefundPasses

  /** A refund of PayPal's order, with the capture id it names as its parent, if any. */
  datatype Listing = Listing(parent: Option<string>, payload: Payload)

  datatype Parented = Parented(parent: string, payloads: seq<Payload>)

  /** The refunds that name this parent, in PayPal's order. */
  function Listed(remote: seq<Listing>, parent: string): seq<Payload> {
    if remote == [] then []
    else
      var last := remote[|remote| - 1];
      Listed(remote[..|remote| - 1], parent) + if last.parent == Some(parent) then [last.payload] else []
  }

  function IndexOf(groups: seq<Parented>, parent: string): (k: nat)
    ensures k <= |groups|
    ensures k < |groups| ==> groups[k].parent == parent
    ensures k == |groups| ==> forall j :: 0 <= j < |groups| ==> groups[j].parent != parent
  {
    if groups == [] then 0
    else if groups[0].parent == parent then 0
    else 1 + IndexOf(groups[1..], parent)
  }

  /** by_capture[parent].append(payload). */
  function Insert(groups: seq<Parented>, parent: string, p: Payload): seq<Parented> {
    var k := IndexOf(groups, parent);
    if k < |groups| then groups[k := Parented(parent, groups[k].payloads + [p])] else groups + [Parented(parent, [p])]
  }

  /** The dictionary by_capture, in insertion order. */
  function ByCapture(remote: seq<Listing>): seq<Parented> {
    if remote == [] then []
    else
      var before, last := ByCapture(remote[..|remote| - 1]), remote[|remote| - 1];
      if last.parent.Some? then Insert(before, last.parent.value, last.payload) else before
  }

  predicate NamedBefore(remote: seq<Listing>, parent: string, i: nat) {
    exists h :: 0 <= h < i && h < |remote| && remote[h].parent == Some(parent)
  }

  ghost predicate OncePerParent(groups: seq<Parented>) {
    forall j, k :: 0 <= j < k < |groups| ==> groups[j].parent != groups[k].parent
  }

  ghost predicate InFirstOrder(remote: seq<Listing>, groups: seq<Parented>) {
    forall j, k, i :: 0 <= j < k < |groups| && 0 <= i < |remote| && remote[i].parent == Some(groups[k].parent) ==>
      NamedBefore(remote, groups[j].parent, i)
  }

  /** Every named parent once, with exactly its refunds, in the order in which the parents are first named. */
  ghost predicate GroupedBy(remote: seq<Listing>, groups: seq<Parented>) {
    && OncePerParent(groups) && InFirstOrder(remote, groups)
    && (forall k :: 0 <= k < |groups| ==> groups[k].payloads == Listed(remote, groups[k].parent) != [])
    && (forall parent :: Listed(remote, parent) != [] ==> exists k :: 0 <= k < |groups| && groups[k].parent == parent)
  }

  lemma {:induction false} ListedNonempty(remote: seq<Listing>, parent: string)
    ensures Listed(remote, parent) != [] <==> NamedBefore(remote, parent, |remote|)
  {
    if remote != [] {
      var n := |remote| - 1;
      ListedNonempty(remote[..n], parent);
      if h :| 0 <= h < n && remote[..n][h].parent == Some(parent) {
        assert remote[h].parent == Some(parent);
      }
      if h :| 0 <= h < n && remote[h].parent == Some(parent) {
        assert remote[..n][h].parent == Some(parent);
      }
    }
  }

  lemma {:induction false} InsertedOrder(remote: seq<Listing>, parent: string)
    requires remote != [] && remote[|remote| - 1].parent == Some(parent)
    requires GroupedBy(remote[..|remote| - 1], ByCapture(remote[..|remote| - 1]))
    ensures InFirstOrder(remote, ByCapture(remote))
  {
    var n := |remote| - 1;
    var before, groups := ByCapture(remote[..n]), ByCapture(remote);
    forall j, k, i | 0 <= j < k < |groups| && 0 <= i < |remote| && remote[i].parent == Some(groups[k].parent)
      ensures NamedBefore(remote, groups[j].parent, i)
    {
      assert j < |before| && groups[j].parent == before[j].parent;
      assert Listed(remote[..n], before[j].parent) != [];
      ListedNonempty(remote[..n], before[j].parent);
      var h :| 0 <= h < n && remote[..n][h].parent == Some(before[j].parent);
      assert remote[h].parent == Some(before[j].parent);
      if i < n {
        assert remote[..n][i].parent == Some(groups[k].parent);
        assert Listed(remote[..n], groups[k].parent) != [] by {
          ListedNonempty(remote[..n], groups[k].parent);
        }
        assert k < |before| && groups[k].parent == before[k].parent;
        assert NamedBefore(remote[..n], before[j].parent, i);
        var g :| 0 <= g < i && g < n && remote[..n][g].parent == Some(before[j].parent);
        assert remote[g].parent == Some(before[j].parent);
      }
    }
  }

  lemma {:induction false} InsertedGroups(remote: seq<Listing>, parent: string)
    requires remote != [] && remote[|remote| - 1].parent == Some(parent)
    requires GroupedBy(remote[..|remote| - 1], ByCapture(remote[..|remote| - 1]))
    ensures GroupedBy(remote, ByCapture(remote))
  {
    hide IndexOf, NamedBefore;
    var before, groups := ByCapture(remote[..|remote| - 1]), ByCapture(remote);
    InsertedLists(remote, parent);
    InsertedOrder(remote, parent);
    InsertedOnce(before, parent, remote[|remote| - 1].payload);
    assert groups == Insert(before, parent, remote[|remote| - 1].payload);
    hide ByCapture, Insert, Listed, InFirstOrder, OncePerParent;
    forall named | Listed(remote, named) != [] ensures exists k :: 0 <= k < |groups| && groups[k].parent == named {
      var k := InsertedCovers(remote, parent, named);
    }
  }

  /** The groups keep their parents; the payload goes to the end of its parent's group. */
  lemma InsertedAt(groups: seq<Parented>, parent: string, p: Payload)
    ensures var at, after := IndexOf(groups, parent), Insert(groups, parent, p);
      && |after| == |groups| + (if at < |groups| then 0 else 1) && after[at].parent == parent
      && after[at].payloads == (if at < |groups| then groups[at].payloads else []) + [p]
      && (forall k :: 0 <= k < |groups| ==> after[k].parent == groups[k].parent)
      && (forall k :: 0 <= k < |groups| && k != at ==> after[k] == groups[k])
  {}

  lemma InsertedOnce(groups: seq<Parented>, parent: string, p: Payload)
    requires OncePerParent(groups)
    ensures OncePerParent(Insert(groups, parent, p))
  {
    InsertedAt(groups, parent, p);
  }

  lemma {:induction false} InsertedLists(remote: seq<Listing>, parent: string)
    requires remote != [] && remote[|remote| - 1].parent == Some(parent)
    requires GroupedBy(remote[..|remote| - 1], ByCapture(remote[..|remote| - 1]))
    ensures var groups := ByCapture(remote);
      forall k :: 0 <= k < |groups| ==> groups[k].payloads == Listed(remote, groups[k].parent) != []
  {
    var n := |remote| - 1;
    var before, groups := ByCapture(remote[..n]), ByCapture(remote);
    var at := IndexOf(before, parent);
    InsertedAt(before, parent, remote[n].payload);
    assert at == |before| ==> Listed(remote[..n], parent) == [];
    forall k | 0 <= k < |groups| ensures groups[k].payloads == Listed(remote, groups[k].parent) != [] {
      assert k < |before| ==> before[k].payloads == Listed(remote[..n], before[k].parent);
      hide GroupedBy, Insert, IndexOf;
      assert k != at ==> groups[k].parent != parent;
    }
  }

  lemma {:induction false} InsertedCovers(remote: seq<Listing>, parent: string, named: string) returns (k: nat)
    requires remote != [] && remote[|remote| - 1].parent == Some(parent)
    requires GroupedBy(remote[..|remote| - 1], ByCapture(remote[..|remote| - 1]))
    requires Listed(remote, named) != []
    ensures k < |ByCapture(remote)| && ByCapture(remote)[k].parent == named
  {
    var n := |remote| - 1;
    var before := ByCapture(remote[..n]);
    InsertedAt(before, parent, remote[n].payload);
    if named == parent {
      k := IndexOf(before, parent);
    } else {
      assert Listed(remote[..n], named) != [];
      k :| 0 <= k < |before| && before[k].parent == named;
    }
  }

  lemma {:induction false} ByCaptureGroups(remote: seq<Listing>)
    ensures GroupedBy(remote, ByCapture(remote))
  {
    if remote != [] {
      var n := |remote| - 1;
      ByCaptureGroups(remote[..n]);
      if remote[n].parent.Some? {
        InsertedGroups(remote, remote[n].parent.value);
      } else {
        UnnamedGroups(remote);
      }
    }
  }

  lemma {:induction false} UnnamedGroups(remote: seq<Listing>)
    requires remote != [] && remote[|remote| - 1].parent.None?
    requires GroupedBy(remote[..|remote| - 1], ByCapture(remote[..|remote| - 1]))
    ensures GroupedBy(remote, ByCapture(remote))
  {
    var n := |remote| - 1;
    var groups := ByCapture(remote);
    forall parent ensures Listed(remote, parent) == Listed(remote[..n], parent) {}
    forall j, k, i | 0 <= j < k < |groups| && 0 <= i < |remote| && remote[i].parent == Some(groups[k].parent)
      ensures NamedBefore(remote, groups[j].parent, i)
    {
      assert remote[..n][i].parent == Some(groups[k].parent);
      var h :| 0 <= h < i && h < n && remote[..n][h].parent == Some(groups[j].parent);
      assert remote[h].parent == Some(groups[j].parent);
    }
  }

  /** The order's capture with this PayPal id, if the order has one. */
  function CaptureNamed(captures: map<nat, Capture>, own: seq<nat>, parent: string): (r: Option<nat>)
    ensures r.Some? ==> r.value in own && r.value in captures && captures[r.value].paypalId == Some(parent)
    ensures r.None? ==> forall c :: c in own && c in captures ==> captures[c].paypalId != Some(parent)
  {
    if own == [] then None
    else if own[0] in captures && captures[own[0]].paypalId == Some(parent) then Some(own[0])
    else CaptureNamed(captures, own[1..], parent)
  }

  /** The groups whose parent the order knows; the others are only reported. */
  function Resolved(captures: map<nat, Capture>, own: seq<nat>, groups: seq<Parented>): seq<Group> {
    if groups == [] then []
    else
      var last := groups[|groups| - 1];
      var capture := CaptureNamed(captures, own, last.parent);
      Resolved(captures, own, groups[..|groups| - 1])
        + if capture.Some? then [Group(capture.value, last.payloads)] else []
  }

  /** What PayPal promises about the list: honest payloads, each refund under its own capture. */
  ghost predicate RemoteOk(captures: map<nat, Capture>, owner: string -> nat, own: seq<nat>, remote: seq<Listing>) {
    forall i, c :: 0 <= i < |remote| && c in own && c in captures && remote[i].parent.Some?
                   && captures[c].paypalId == remote[i].parent ==>
      Honest(remote[i].payload) && owner(remote[i].payload.id.value) == c
  }

  lemma {:induction false} ListedOk(captures: map<nat, Capture>, owner: string -> nat, own: seq<nat>,
                                    remote: seq<Listing>, c: nat, parent: string, j: nat)
    requires RemoteOk(captures, owner, own, remote)
    requires c in own && c in captures && captures[c].paypalId == Some(parent) && j < |Listed(remote, parent)|
    ensures Honest(Listed(remote, parent)[j]) && owner(Listed(remote, parent)[j].id.value) == c
  {
    var before := remote[..|remote| - 1];
    if j < |Listed(before, parent)| {
      ListedOk(captures, owner, own, before, c, parent, j);
    } else {
      assert remote[|remote| - 1].parent == captures[c].paypalId;
    }
  }

  /** Where the resolved groups come from. */
  lemma {:induction false} ResolvedFrom(captures: map<nat, Capture>, own: seq<nat>, groups: seq<Parented>, i: nat)
    returns (k: nat)
    requires i < |Resolved(captures, own, groups)|
    ensures k < |groups| && FromGroup(captures, own, groups[k], Resolved(captures, own, groups)[i])
  {
    var before := groups[..|groups| - 1];
    if i < |Resolved(captures, own, before)| {
      k := ResolvedFrom(captures, own, before, i);
    } else {
      k := |groups| - 1;
    }
  }

  lemma {:induction false} ResolvedDistinct(captures: map<nat, Capture>, own: seq<nat>, groups: seq<Parented>)
    requires forall j, k :: 0 <= j < k < |groups| ==> groups[j].parent != groups[k].parent
    ensures forall i, j :: 0 <= i < j < |Resolved(captures, own, groups)| ==>
      Resolved(captures, own, groups)[i].capture != Resolved(captures, own, groups)[j].capture
  {
    if groups != [] {
      var before, last := groups[..|groups| - 1], groups[|groups| - 1];
      ResolvedDistinct(captures, own, before);
      var done, capture := Resolved(captures, own, before), CaptureNamed(captures, own, last.parent);
      forall i | 0 <= i < |done| ensures capture != Some(done[i].capture) {
        var k := ResolvedFrom(captures, own, before, i);
        assert groups[k].parent != last.parent;
      }
    }
  }

  lemma {:induction false} ResolvedHas(captures: map<nat, Capture>, own: seq<nat>, groups: seq<Parented>, k: nat)
    returns (i: nat)
    requires k < |groups| && CaptureNamed(captures, own, groups[k].parent).Some?
    ensures i < |Resolved(captures, own, groups)| &&
      FromGroup(captures, own, groups[k], Resolved(captures, own, groups)[i])
    decreases |groups|
  {
    var before := groups[..|groups| - 1];
    if k < |before| {
      i := ResolvedHas(captures, own, before, k);
    } else {
      i := |Resolved(captures, own, before)|;
    }
  }

  predicate FromGroup(captures: map<nat, Capture>, own: seq<nat>, g: Parented, resolved: Group) {
    CaptureNamed(captures, own, g.parent) == Some(resolved.capture) && resolved.payloads == g.payloads
  }

  /** The groups _reconcile_refunds works through. */
  function GroupsOf(captures: map<nat, Capture>, own: seq<nat>, remote: seq<Listing>): seq<Group> {
    Resolved(captures, own, ByCapture(remote))
  }

  lemma GroupsOfOk(db: Db, owner: string -> nat, own: seq<nat>, remote: seq<Listing>)
    requires RemoteOk(db.captures, owner, own, remote)
    ensures GroupsOk(db, owner, GroupsOf(db.captures, own, remote))
  {
    var groups, all := ByCapture(remote), GroupsOf(db.captures, own, remote);
    ByCaptureGroups(remote);
    ResolvedDistinct(db.captures, own, groups);
    forall i | 0 <= i < |all| ensures GroupOk(db, owner, all[i]) {
      var k := ResolvedFrom(db.captures, own, groups, i);
      forall j | 0 <= j < |all[i].payloads|
        ensures Honest(all[i].payloads[j]) && owner(all[i].payloads[j].id.value) == all[i].capture
      {
        ListedOk(db.captures, owner, own, remote, all[i].capture, groups[k].parent, j);
      }
    }
  }

  /** Resolution sees the captures' PayPal ids only. */
  lemma {:induction false} CaptureNamedSame(a: map<nat, Capture>, b: map<nat, Capture>, own: seq<nat>, parent: string)
    requires a.Keys == b.Keys && forall c :: c in a ==> a[c].paypalId == b[c].paypalId
    ensures CaptureNamed(a, own, parent) == CaptureNamed(b, own, parent)
  {
    if own != [] {
      CaptureNamedSame(a, b, own[1..], parent);
    }
  }

  lemma {:induction false} ResolvedSame(a: map<nat, Capture>, b: map<nat, Capture>,
    own: seq<nat>, groups: seq<Parented>)
    requires a.Keys == b.Keys && forall c :: c in a ==> a[c].paypalId == b[c].paypalId
    ensures Resolved(a, own, groups) == Resolved(b, own, groups)
  {
    if groups != [] {
      CaptureNamedSame(a, b, own, groups[|groups| - 1].parent);
      ResolvedSame(a, b, own, groups[..|groups| - 1]);
    }
  }

  /** A capture the order knows is handled in one group, with exactly the refunds that name it. */
  lemma GroupOfParent(captures: map<nat, Capture>, own: seq<nat>, remote: seq<Listing>, parent: string) returns (i: nat)
    requires Listed(remote, parent) != [] && CaptureNamed(captures, own, parent).Some?
    ensures var all := GroupsOf(captures, own, remote);
      i < |all| && all[i] == Group(CaptureNamed(captures, own, parent).value, Listed(remote, parent))
  {
    var groups := ByCapture(remote);
    ByCaptureGroups(remote);
    var k :| 0 <= k < |groups| && groups[k].parent == parent;
    i := ResolvedHas(captures, own, groups, k);
  }

  lemma ParentOfGroup(captures: map<nat, Capture>, own: seq<nat>, remote: seq<Listing>, i: nat) returns (parent: string)
    requires i < |GroupsOf(captures, own, remote)|
    ensures CaptureNamed(captures, own, parent).Some? && Listed(remote, parent) != []
    ensures GroupsOf(captures, own, remote)[i] ==
      Group(CaptureNamed(captures, own, parent).value, Listed(remote, parent))
  {
    ByCaptureGroups(remote);
    var k := ResolvedFrom(captures, own, ByCapture(remote), i);
    parent := ByCapture(remote)[k].parent;
  }

  /** _reconcile_refunds on the table. */
  function RefundPass(db: Db, own: seq<nat>, remote: seq<Listing>): Pass {
    RunPasses(db, GroupsOf(db.captures, own, remote))
  }

  /** PayPal lists no refund twice. */
  ghost predicate DistinctRefunds(remote: seq<Listing>) {
    forall i, j :: 0 <= i < j < |remote| ==> remote[i].payload.id != remote[j].payload.id
  }

  /** Under some capture the pass binds an attempt that already carries another of that capture's listed refunds. */
  ghost predicate ListingRebinds(db: Db, own: seq<nat>, remote: seq<Listing>) {
    exists parent :: CaptureNamed(db.captures, own, parent).Some?
      && Rebinds(db, CaptureNamed(db.captures, own, parent).value, Listed(remote, parent))
  }

  lemma RebindsListing(db: Db, own: seq<nat>, remote: seq<Listing>)
    ensures SomeRebinds(db, GroupsOf(db.captures, own, remote)) <==> ListingRebinds(db, own, remote)
  {
    var all := GroupsOf(db.captures, own, remote);
    if k :| 0 <= k < |all| && Rebinds(db, all[k].capture, all[k].payloads) {
      var parent := ParentOfGroup(db.captures, own, remote, k);
    }
    if parent :| CaptureNamed(db.captures, own, parent).Some?
                 && Rebinds(db, CaptureNamed(db.captures, own, parent).value, Listed(remote, parent)) {
      assert Listed(remote, parent) != [];
      var k := GroupOfParent(db.captures, own, remote, parent);
      assert Rebinds(db, all[k].capture, all[k].payloads);
    }
  }

  lemma {:induction false} ListedFrom(remote: seq<Listing>, parent: string, j: nat) returns (i: nat)
    requires j < |Listed(remote, parent)|
    ensures i < |remote| && remote[i].parent == Some(parent) && remote[i].payload == Listed(remote, parent)[j]
  {
    var before := remote[..|remote| - 1];
    if j < |Listed(before, parent)| {
      i := ListedFrom(before, parent, j);
    } else {
      i := |remote| - 1;
    }
  }

  lemma {:induction false} ListedHas(remote: seq<Listing>, parent: string, i: nat) returns (j: nat)
    requires i < |remote| && remote[i].parent == Some(parent)
    ensures j < |Listed(remote, parent)| && Listed(remote, parent)[j] == remote[i].payload
    decreases |remote|
  {
    var before := remote[..|remote| - 1];
    if i < |before| {
      j := ListedHas(before, parent, i);
    } else {
      j := |Listed(before, parent)|;
    }
  }

  lemma {:induction false} ListedDistinct(remote: seq<Listing>, parent: string)
    requires DistinctRefunds(remote)
    ensures DistinctIds(Listed(remote, parent))
  {
    if remote != [] {
      var n := |remote| - 1;
      ListedDistinct(remote[..n], parent);
      forall j | 0 <= j < |Listed(remote[..n], parent)|
        ensures Listed(remote[..n], parent)[j].id != remote[n].payload.id {
        var i := ListedFrom(remote[..n], parent, j);
        assert remote[i].payload.id != remote[n].payload.id;
      }
    }
  }

  /** Nothing but captures' statuses differs, nothing was adopted or bound, and nothing was signalled. */
  ghost predicate Idle(pass: Pass, before: Db) {
    Strip(pass.db) == Strip(before) && pass.adopted == [] && pass.signals == []
  }

  /** One call of _reconcile_refunds, statuses aside: the passes over the listing's groups. */
  lemma RefundPassIs(db: Db, owner: string -> nat, own: seq<nat>, remote: seq<Listing>)
    requires TableOk(db) && Owned(db, owner) && RemoteOk(db.captures, owner, own, remote)
    ensures var pass, plain := RefundPass(db, own, remote), PassAll(Strip(db), GroupsOf(db.captures, own, remote));
      && Strip(pass.db) == plain.db && pass.adopted == plain.adopted && pass.signals == plain.signals
      && TableOk(pass.db) && Owned(pass.db, owner) && RemoteOk(pass.db.captures, owner, own, remote)
      && GroupsOf(pass.db.captures, own, remote) == GroupsOf(db.captures, own, remote)
    ensures TableOk(Strip(db)) && Owned(Strip(db), owner) &&
      GroupsOk(Strip(db), owner, GroupsOf(db.captures, own, remote))
  {
    var groups, after := GroupsOf(db.captures, own, remote), RefundPass(db, own, remote).db;
    GroupsOfOk(db, owner, own, remote);
    PassesStrip(db, owner, groups);
    StripTable(db);
    StripGroups(db, owner, groups);
    PassAllKeeps(Strip(db), owner, groups);
    StripFacts(db);
    StripFacts(after);
    hide TableOk, RunPasses, PassAll, Strip, Resolved, ByCapture;
    ResolvedSame(db.captures, after.captures, own, ByCapture(remote));
  }

  lemma StripRebinds(db: Db, groups: seq<Group>)
    ensures SomeRebinds(Strip(db), groups) <==> SomeRebinds(db, groups)
  {
    StripFacts(db);
    hide Strip;
    forall k | 0 <= k < |groups|
      ensures Rebinds(Strip(db), groups[k].capture, groups[k].payloads) <==>
        Rebinds(db, groups[k].capture, groups[k].payloads)
    {
    }
  }

  lemma GroupsDistinct(captures: map<nat, Capture>, own: seq<nat>, remote: seq<Listing>)
    requires DistinctRefunds(remote)
    ensures forall k :: 0 <= k < |GroupsOf(captures, own, remote)| ==>
      DistinctIds(GroupsOf(captures, own, remote)[k].payloads)
  {
    hide GroupsOf, DistinctRefunds, DistinctIds;
    forall k | 0 <= k < |GroupsOf(captures, own, remote)|
      ensures DistinctIds(GroupsOf(captures, own, remote)[k].payloads) {
      var parent := ParentOfGroup(captures, own, remote, k);
      ListedDistinct(remote, parent);
    }
  }

  /**
   Handing _reconcile_refunds the same listing again changes no refund row and no capture id, adopts
   nothing and sends no signal, if and only if the first call rebound no attempt.
   */
  lemma ListingTwiceIff(db: Db, owner: string -> nat, own: seq<nat>, remote: seq<Listing>)
    requires TableOk(db) && Owned(db, owner) && RemoteOk(db.captures, owner, own, remote) && DistinctRefunds(remote)
    ensures var first := RefundPass(db, own, remote).db;
      Idle(RefundPass(first, own, remote), first) <==> !ListingRebinds(db, own, remote)
  {
    hide RefundPass, PassAll, Strip, GroupsOf, TableOk, Owned, RemoteOk,
      GroupsOk, DistinctRefunds, SomeRebinds, ListingRebinds, DistinctIds;
    var groups, first := GroupsOf(db.captures, own, remote), RefundPass(db, own, remote).db;
    RefundPassIs(db, owner, own, remote);
    RefundPassIs(first, owner, own, remote);
    RebindsListing(db, own, remote);
    StripRebinds(db, groups);
    GroupsDistinct(db.captures, own, remote);
    ReconcilingTwiceIff(Strip(db), owner, groups);
  }

  /** A listed refund of a capture the order knows. */
  predicate IsListed(captures: map<nat, Capture>, own: seq<nat>, remote: seq<Listing>, capture: nat, p: Payload) {
    exists i :: 0 <= i < |remote| && remote[i].parent.Some? && remote[i].payload == p
      && CaptureNamed(captures, own, remote[i].parent.value) == Some(capture)
  }

  lemma ListedInGroup(captures: map<nat, Capture>, own: seq<nat>, remote: seq<Listing>, capture: nat, p: Payload)
    returns (k: nat, j: nat)
    requires IsListed(captures, own, remote, capture, p)
    ensures var all := GroupsOf(captures, own, remote);
      k < |all| && j < |all[k].payloads| && all[k].capture == capture && all[k].payloads[j] == p
  {
    var i :| 0 <= i < |remote| && remote[i].parent.Some? && remote[i].payload == p
      && CaptureNamed(captures, own, remote[i].parent.value) == Some(capture);
    hide GroupsOf;
    j := ListedHas(remote, remote[i].parent.value, i);
    k := GroupOfParent(captures, own, remote, remote[i].parent.value);
  }

  lemma GroupIsListed(captures: map<nat, Capture>, own: seq<nat>, remote: seq<Listing>, k: nat, j: nat)
    requires k < |GroupsOf(captures, own, remote)| && j < |GroupsOf(captures, own, remote)[k].payloads|
    ensures var g := GroupsOf(captures, own, remote)[k]; IsListed(captures, own, remote, g.capture, g.payloads[j])
  {
    hide GroupsOf;
    var parent := ParentOfGroup(captures, own, remote, k);
    var i := ListedFrom(remote, parent, j);
  }

  /** Every listed refund of a capture the order knows ends up on exactly one row, under it, if and
      only if nothing was rebound. */
  lemma ListingCarriedOnceIff(db: Db, owner: string -> nat, own: seq<nat>, remote: seq<Listing>)
    requires TableOk(db) && Owned(db, owner) && RemoteOk(db.captures, owner, own, remote)
    ensures (forall capture, p :: IsListed(db.captures, own, remote, capture, p) ==>
               CarriedOnce(RefundPass(db, own, remote).db.rows, capture, p.id))
       <==> !ListingRebinds(db, own, remote)
  {
    hide RefundPass, PassAll, Strip, GroupsOf, TableOk, Owned, RemoteOk,
      GroupsOk, SomeRebinds, ListingRebinds, CarriedOnce, IsListed;
    var groups, rows := GroupsOf(db.captures, own, remote), RefundPass(db, own, remote).db.rows;
    RefundPassIs(db, owner, own, remote);
    StripFacts(RefundPass(db, own, remote).db);
    RebindsListing(db, own, remote);
    StripRebinds(db, groups);
    AllCarriedOnceIff(Strip(db), owner, groups);
    if !ListingRebinds(db, own, remote) {
      forall capture, p | IsListed(db.captures, own, remote, capture, p) ensures CarriedOnce(rows, capture, p.id) {
        var k, j := ListedInGroup(db.captures, own, remote, capture, p);
      }
    } else {
      var k, j :| 0 <= k < |groups| && 0 <= j < |groups[k].payloads|
        && !CarriedOnce(rows, groups[k].capture, groups[k].payloads[j].id);
      GroupIsListed(db.captures, own, remote, k, j);
    }
  }

  /**
   However PayPal interleaves the refunds of different captures, a capture's rows end up
   as its own refunds alone prescribe.
   */
  lemma OutcomeOfCapture(db: Db, owner: string -> nat, own: seq<nat>, remote: seq<Listing>, parent: string)
    requires TableOk(db) && Owned(db, owner) && RemoteOk(db.captures, owner, own, remote)
    requires Listed(remote, parent) != [] && CaptureNamed(db.captures, own, parent).Some?
    ensures Reconciled(db, RefundPass(db, own, remote).db,
      CaptureNamed(db.captures, own, parent).value, Listed(remote, parent))
  {
    hide RefundPass, PassAll, Strip, GroupsOf, TableOk, Owned, RemoteOk, GroupsOk, Reconciled, Listed;
    var i := GroupOfParent(db.captures, own, remote, parent);
    RefundPassIs(db, owner, own, remote);
    OutcomeByCapture(Strip(db), owner, GroupsOf(db.captures, own, remote), i);
    StripFacts(db);
    ReconciledStrips(db, RefundPass(db, own, remote).db,
      CaptureNamed(db.captures, own, parent).value, Listed(remote, parent));
  }

  lemma ReconciledStrips(db: Db, after: Db, capture: nat, payloads: seq<Payload>)
    requires capture in db.captures && capture in Strip(db).captures
    requires Reconciled(Strip(db), Strip(after), capture, payloads)
    ensures Reconciled(db, after, capture, payloads)
  {
    StripFacts(db);
    StripFacts(after);
    PassLocalStrip(db, capture, payloads);
    hide Strip, Inserted, Kept;
    var base :| Lands(Strip(db), Strip(after), capture, Inserted(Strip(db), capture, payloads), base);
    assert Lands(db, after, capture, Inserted(db, capture, payloads), base);
  }

  lemma PassLocalStrip(db: Db, capture: nat, payloads: seq<Payload>)
    requires capture in db.captures
    ensures capture in Strip(db).captures && Inserted(Strip(db), capture, payloads) == Inserted(db, capture, payloads)
    ensures forall pk :: pk in db.rows ==> Kept(Strip(db), capture, payloads, pk) == Kept(db, capture, payloads, pk)
  {
    StripFacts(db);
    CreatedStrip(db, capture, Unmatched(db.rows, capture, payloads));
  }

  lemma {:induction false} CreatedStrip(db: Db, capture: nat, unmatched: seq<Payload>)
    requires capture in db.captures
    ensures Created(Strip(db), capture, unmatched) == Created(db, capture, unmatched)
  {
    if unmatched != [] {
      CreatedStrip(db, capture, unmatched[..|unmatched| - 1]);
    }
  }
}
